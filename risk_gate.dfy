/** Pre-trade risk checks (src/tbot/engine/risk_gate.py): seven vetoes evaluated in a fixed order,
    the first failing one deciding. None of them changes the ledger: they are functions of its values. */
module RiskGate {
  import opened Wrappers
  import opened Num
  import opened Clock
  import opened Reasons
  import Ledger
  import opened RegimeRules

  /** The gate's parameters (`RiskGate` fields); times of day in seconds since midnight. */
  datatype RiskConfig = RiskConfig(
    maxRoundTripsPerDay: int,
    dailyLossLimit: real,
    cooldownMinutes: int,
    openBufferMinutes: int,
    eventOpenBufferMinutes: int,
    maxSpreadPct: real,
    minDepth: int,
    marketOpen: TimeOfDay,
    marketClose: TimeOfDay,
    closeOnlyStart: TimeOfDay)

  const DefaultRisk := RiskConfig(2, 100.0, 15, 30, 60, 0.005, 100, 34200, 57600, 56700)

  /** Quote data for the liquidity checks (`MarketData`). */
  datatype MarketData = MarketData(price: real, bid: real, ask: real, spread: real, spreadPct: real,
                                   bidSize: int, askSize: int, volume: int)

  /** `RiskCheckResult` without its details dictionary. */
  datatype CheckResult = CheckResult(passed: bool, reason: GateReason)

  const Pass := CheckResult(true, NoReason)

  /** What the gate reads from a ledger. */
  datatype LedgerFacts = LedgerFacts(dailyPnl: real, roundTripsDone: int, lastTradeTime: Option<Instant>)

  function FactsOf(s: Ledger.TradingState): LedgerFacts
    reads s
  {
    LedgerFacts(s.dailyPnl, s.roundTripsDone, s.lastTradeTime)
  }

  /** `_check_daily_loss`: fails once the day's loss reaches the limit, the limit itself included. */
  function CheckDailyLoss(cfg: RiskConfig, facts: LedgerFacts): (r: CheckResult)
    ensures !r.passed <==> facts.dailyPnl <= -cfg.dailyLossLimit
    ensures r == Pass || r == CheckResult(false, DailyLossLimitHit)
  {
    if facts.dailyPnl <= -cfg.dailyLossLimit then CheckResult(false, DailyLossLimitHit) else Pass
  }

  /** The opening buffer in minutes: the longer event buffer on event days. */
  function BufferMinutes(cfg: RiskConfig, regime: Regime): int
  {
    if regime == Event then cfg.eventOpenBufferMinutes else cfg.openBufferMinutes
  }

  /** `_check_time_buffer`: fails before the market open of the same day plus the buffer. */
  function CheckTimeBuffer(cfg: RiskConfig, now: Instant, regime: Regime): (r: CheckResult)
    ensures !r.passed <==> TimeOf(now) < cfg.marketOpen + 60 * BufferMinutes(cfg, regime)
    ensures r == Pass || r == CheckResult(false, OpeningBuffer(BufferMinutes(cfg, regime)))
  {
    var earliest := At(DayOf(now), cfg.marketOpen) + 60 * BufferMinutes(cfg, regime);
    assert now == At(DayOf(now), TimeOf(now));
    if now < earliest then CheckResult(false, OpeningBuffer(BufferMinutes(cfg, regime))) else Pass
  }

  /** Minutes since the last trade, as a real number. */
  function ElapsedMinutes(last: Instant, now: Instant): real {
    (now - last) as real / 60.0
  }

  /** `_check_cooldown`: passes with no earlier trade; otherwise fails while fewer than the cooldown
      minutes have elapsed, reporting the minutes still to wait. */
  function CheckCooldown(cfg: RiskConfig, facts: LedgerFacts, now: Instant): (r: CheckResult)
    ensures facts.lastTradeTime.None? ==> r == Pass
    ensures facts.lastTradeTime.Some? ==>
      (!r.passed <==> ElapsedMinutes(facts.lastTradeTime.value, now) < cfg.cooldownMinutes as real)
    ensures !r.passed ==> r.reason.CoolingDown? && r.reason.remainingMinutes > 0.0
    ensures r.passed ==> r == Pass
  {
    match facts.lastTradeTime
    case None => Pass
    case Some(last) =>
      var elapsed := ElapsedMinutes(last, now);
      if elapsed < cfg.cooldownMinutes as real then CheckResult(false, CoolingDown(cfg.cooldownMinutes as real - elapsed))
      else Pass
  }

  /** `_check_round_trips`: fails once the day's cap of round trips is reached. */
  function CheckRoundTrips(cfg: RiskConfig, facts: LedgerFacts): (r: CheckResult)
    ensures !r.passed <==> facts.roundTripsDone >= cfg.maxRoundTripsPerDay
    ensures r == Pass || r == CheckResult(false, MaxRoundTripsReached)
  {
    if facts.roundTripsDone >= cfg.maxRoundTripsPerDay then CheckResult(false, MaxRoundTripsReached) else Pass
  }

  /** `_check_close_only`: fails from the close-only time of day on. */
  function CheckCloseOnly(cfg: RiskConfig, now: Instant): (r: CheckResult)
    ensures !r.passed <==> TimeOf(now) >= cfg.closeOnlyStart
    ensures r == Pass || r == CheckResult(false, CloseOnlyPeriod)
  {
    if TimeOf(now) >= cfg.closeOnlyStart then CheckResult(false, CloseOnlyPeriod) else Pass
  }

  /** `_check_spread`: fails only for a spread strictly wider than allowed. */
  function CheckSpread(cfg: RiskConfig, md: MarketData): (r: CheckResult)
    ensures !r.passed <==> md.spreadPct > cfg.maxSpreadPct
    ensures r == Pass || r == CheckResult(false, SpreadTooWide)
  {
    if md.spreadPct > cfg.maxSpreadPct then CheckResult(false, SpreadTooWide) else Pass
  }

  /** `_check_depth`: fails when the thinner side of the book is below the minimum depth. */
  function CheckDepth(cfg: RiskConfig, md: MarketData): (r: CheckResult)
    ensures !r.passed <==> md.bidSize < cfg.minDepth || md.askSize < cfg.minDepth
    ensures r == Pass || r == CheckResult(false, DepthTooThin)
  {
    var minSize := if md.bidSize <= md.askSize then md.bidSize else md.askSize;
    if minSize < cfg.minDepth then CheckResult(false, DepthTooThin) else Pass
  }

  /** The checks in the order `check_all` lists them; the liquidity checks only with quote data. */
  function Checks(cfg: RiskConfig, facts: LedgerFacts, now: Instant, md: Option<MarketData>, regime: Regime): (cs: seq<CheckResult>)
    ensures |cs| == (if md.Some? then 7 else 5)
  {
    var base := [CheckDailyLoss(cfg, facts), CheckTimeBuffer(cfg, now, regime), CheckCooldown(cfg, facts, now),
                 CheckRoundTrips(cfg, facts), CheckCloseOnly(cfg, now)];
    match md
    case None => base
    case Some(m) => base + [CheckSpread(cfg, m), CheckDepth(cfg, m)]
  }

  /** The first failing result of `cs`, or the all-passed result. */
  function FirstFailure(cs: seq<CheckResult>): (r: CheckResult)
    ensures r.passed <==> forall i :: 0 <= i < |cs| ==> cs[i].passed
    ensures r.passed ==> r == CheckResult(true, AllChecksPassed)
    ensures !r.passed ==> exists k :: 0 <= k < |cs| && cs[k] == r && forall j :: 0 <= j < k ==> cs[j].passed
  {
    if cs == [] then CheckResult(true, AllChecksPassed)
    else if !cs[0].passed then cs[0]
    else
      var r := FirstFailure(cs[1..]);
      assert forall i :: 1 <= i < |cs| ==> cs[i] == cs[1..][i - 1];
      if !r.passed then
        var k :| 0 <= k < |cs[1..]| && cs[1..][k] == r && forall j :: 0 <= j < k ==> cs[1..][j].passed;
        assert cs[k + 1] == r;
        r
      else r
  }

  /** `check_all`: the first failing check in the order daily loss, opening buffer, cooldown,
      round trips, close-only, then spread and depth when quote data is given; else all passed. */
  function CheckAll(cfg: RiskConfig, facts: LedgerFacts, now: Instant, md: Option<MarketData>, regime: Regime): (r: CheckResult)
    ensures r.passed <==> forall i :: 0 <= i < |Checks(cfg, facts, now, md, regime)| ==> Checks(cfg, facts, now, md, regime)[i].passed
    ensures r.passed ==> r.reason == AllChecksPassed
    ensures !r.passed ==> var cs := Checks(cfg, facts, now, md, regime);
      exists k :: 0 <= k < |cs| && cs[k] == r && forall j :: 0 <= j < k ==> cs[j].passed
  {
    FirstFailure(Checks(cfg, facts, now, md, regime))
  }

  /** The loss limit outranks every other veto. */
  lemma LossLimitFirst(cfg: RiskConfig, facts: LedgerFacts, now: Instant, md: Option<MarketData>, regime: Regime)
    requires facts.dailyPnl <= -cfg.dailyLossLimit
    ensures CheckAll(cfg, facts, now, md, regime) == CheckResult(false, DailyLossLimitHit)
  {
    var cs := Checks(cfg, facts, now, md, regime);
    var r := CheckAll(cfg, facts, now, md, regime);
    assert !cs[0].passed;
    var k :| 0 <= k < |cs| && cs[k] == r && forall j :: 0 <= j < k ==> cs[j].passed;
    assert k == 0;
  }

  /** Without quote data the liquidity checks cannot fail the gate. */
  lemma LiquidityNeedsQuotes(cfg: RiskConfig, facts: LedgerFacts, now: Instant, regime: Regime)
    ensures var r := CheckAll(cfg, facts, now, None, regime);
      r.reason != SpreadTooWide && r.reason != DepthTooThin
  {
    var cs := Checks(cfg, facts, now, None, regime);
    var r := CheckAll(cfg, facts, now, None, regime);
    if !r.passed {
      var k :| 0 <= k < |cs| && cs[k] == r && forall j :: 0 <= j < k ==> cs[j].passed;
    }
  }

  /** The gate passes exactly when each of the seven (or five) conditions holds. */
  lemma PassesIffAllClear(cfg: RiskConfig, facts: LedgerFacts, now: Instant, md: Option<MarketData>, regime: Regime)
    ensures CheckAll(cfg, facts, now, md, regime).passed <==>
      && facts.dailyPnl > -cfg.dailyLossLimit
      && TimeOf(now) >= cfg.marketOpen + 60 * BufferMinutes(cfg, regime)
      && (facts.lastTradeTime.Some? ==> ElapsedMinutes(facts.lastTradeTime.value, now) >= cfg.cooldownMinutes as real)
      && facts.roundTripsDone < cfg.maxRoundTripsPerDay
      && TimeOf(now) < cfg.closeOnlyStart
      && (md.Some? ==> md.value.spreadPct <= cfg.maxSpreadPct && md.value.bidSize >= cfg.minDepth && md.value.askSize >= cfg.minDepth)
  {
    var cs := Checks(cfg, facts, now, md, regime);
    assert cs[0] == CheckDailyLoss(cfg, facts) && cs[1] == CheckTimeBuffer(cfg, now, regime);
    assert cs[2] == CheckCooldown(cfg, facts, now) && cs[3] == CheckRoundTrips(cfg, facts);
    assert cs[4] == CheckCloseOnly(cfg, now);
    if md.Some? {
      assert cs[5] == CheckSpread(cfg, md.value) && cs[6] == CheckDepth(cfg, md.value);
    }
  }

  /** `is_trading_hours`: between the open and the close, both included; never, when the open is
      after the close. */
  function IsTradingHours(cfg: RiskConfig, now: Instant): (r: bool)
    ensures r ==> cfg.marketOpen <= cfg.marketClose
    ensures cfg.marketOpen <= cfg.marketClose && (TimeOf(now) == cfg.marketOpen || TimeOf(now) == cfg.marketClose) ==> r
  {
    cfg.marketOpen <= TimeOf(now) <= cfg.marketClose
  }

  /** With the close-only time no later than the close and a non-negative buffer, a time the
      gate lets through is inside trading hours. */
  lemma PassedGateIsTradingHours(cfg: RiskConfig, facts: LedgerFacts, now: Instant, md: Option<MarketData>, regime: Regime)
    requires CheckAll(cfg, facts, now, md, regime).passed
    requires cfg.closeOnlyStart <= cfg.marketClose && BufferMinutes(cfg, regime) >= 0
    ensures IsTradingHours(cfg, now)
  {
    PassesIffAllClear(cfg, facts, now, md, regime);
  }

  /** The checks of the test suite: a loss of exactly the limit fails; 9:29 is inside the 30-minute
      buffer and 10:00 outside it, while an event day waits until 10:30; ten minutes after a trade is
      inside a 15-minute cooldown and twenty are not; two round trips reach a cap of two; a 1% spread
      is too wide and 0.3% is not. */
  lemma GateScenario(day: int)
    ensures CheckDailyLoss(DefaultRisk, LedgerFacts(-50.0, 0, None)).passed
    ensures !CheckDailyLoss(DefaultRisk, LedgerFacts(-100.0, 0, None)).passed
    ensures !CheckTimeBuffer(DefaultRisk, At(day, Hm(9, 29)), Range).passed
    ensures CheckTimeBuffer(DefaultRisk, At(day, Hm(10, 0)), Range).passed
    ensures !CheckTimeBuffer(DefaultRisk, At(day, Hm(10, 0)), Event).passed
    ensures CheckTimeBuffer(DefaultRisk, At(day, Hm(10, 30)), Event).passed
    ensures !CheckCooldown(DefaultRisk, LedgerFacts(0.0, 0, Some(At(day, Hm(10, 0)))), At(day, Hm(10, 10))).passed
    ensures CheckCooldown(DefaultRisk, LedgerFacts(0.0, 0, Some(At(day, Hm(10, 0)))), At(day, Hm(10, 20))).passed
    ensures CheckRoundTrips(DefaultRisk, LedgerFacts(0.0, 1, None)).passed
    ensures !CheckRoundTrips(DefaultRisk, LedgerFacts(0.0, 2, None)).passed
    ensures CheckSpread(DefaultRisk, MarketData(100.0, 0.0, 0.0, 0.0, 0.003, 0, 0, 0)).passed
    ensures !CheckSpread(DefaultRisk, MarketData(100.0, 0.0, 0.0, 0.0, 0.01, 0, 0, 0)).passed
  {
    AtParts(day, Hm(9, 29));
    AtParts(day, Hm(10, 0));
    AtParts(day, Hm(10, 30));
  }
}
