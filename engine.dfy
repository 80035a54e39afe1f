/** The trading engine (src/tbot/engine/engine.py): per-symbol ledgers and regimes, the daily
    rollover, and one market update running classification, the risk gate, the signal generator
    and the simulated executor in that order. The engine's callbacks become an event log. */
module Engine {
  import opened Wrappers
  import opened Clock
  import opened Reasons
  import Ledger
  import opened RegimeRules
  import opened Features
  import opened RiskGate
  import opened Signals

  /** The identifier `SIM-BUY-n` / `SIM-SELL-n` of a simulated order. */
  datatype OrderId = SimOrder(side: Ledger.Direction, n: nat)

  /** `SimulatedExecutor`: numbers its orders with one counter shared by both sides. */
  class SimulatedExecutor {
    var orderCount: nat
    /** The identifiers handed out so far. */
    ghost var issued: seq<OrderId>

    ghost predicate Valid()
      reads this
    {
      |issued| == orderCount && forall i :: 0 <= i < |issued| ==> issued[i].n == i + 1
    }

    constructor ()
      ensures Valid() && orderCount == 0 && issued == []
    {
      orderCount := 0;
      issued := [];
    }

    /** `place_limit_buy`: the next order number on the buy side. */
    method PlaceLimitBuy(symbol: string, shares: int, price: real, improvePct: real) returns (id: OrderId)
      requires Valid()
      modifies this
      ensures Valid()
      ensures orderCount == old(orderCount) + 1 && id == SimOrder(Ledger.Direction.Buy, orderCount)
      ensures issued == old(issued) + [id]
    {
      orderCount := orderCount + 1;
      id := SimOrder(Ledger.Direction.Buy, orderCount);
      issued := issued + [id];
    }

    /** `place_limit_sell`: the next order number on the sell side. */
    method PlaceLimitSell(symbol: string, shares: int, price: real, improvePct: real) returns (id: OrderId)
      requires Valid()
      modifies this
      ensures Valid()
      ensures orderCount == old(orderCount) + 1 && id == SimOrder(Ledger.Direction.Sell, orderCount)
      ensures issued == old(issued) + [id]
    {
      orderCount := orderCount + 1;
      id := SimOrder(Ledger.Direction.Sell, orderCount);
      issued := issued + [id];
    }

    /** No two orders of one executor share an identifier. */
    lemma IdsDistinct(i: int, j: int)
      requires Valid() && 0 <= i < j < |issued|
      ensures issued[i] != issued[j]
    {
    }
  }

  /** `EngineConfig`. */
  datatype EngineConfig = EngineConfig(coreShares: int, tMaxShares: int, tStepShares: int,
                                       priceImprovePct: real, simulationMode: bool)

  const DefaultEngine := EngineConfig(100, 50, 25, 0.001, true)

  /** What the `on_signal`, `on_trade` and `on_regime_change` callbacks receive, in order. */
  datatype EngineEvent =
    | SignalIssued(symbol: string, signal: TradingSignal)
    | TradeDone(symbol: string, trade: Ledger.TradeRecord)
    | RegimeChanged(symbol: string, from: Regime, to: Regime)

  /** The decision part of one update for a registered symbol. */
  datatype StepResult = StepResult(regime: Regime, gate: CheckResult, outcome: Generated)

  /** Classification runs only when features are supplied and the stored regime is unknown. */
  function RegimeFor(th: Thresholds, stored: Regime, features: Option<RegimeFeatures>): (r: Regime)
    ensures stored != Unknown || features.None? ==> r == stored
    ensures stored == Unknown && features.Some? ==> r == Classify(th, features.value).regime
  {
    if features.Some? && stored == Unknown then Classify(th, features.value).regime else stored
  }

  /** Classify if needed, run the risk gate with the resulting regime, and consult the generator
      only when the gate passes; a veto is a HOLD carrying the gate's reason. */
  function Step(th: Thresholds, risk: RiskConfig, sig: SignalConfig, up: int, down: int,
                facts: LedgerFacts, pos: Ledger.Position, stored: Regime,
                market: MarketSnapshot, now: Instant, md: Option<MarketData>, features: Option<RegimeFeatures>): (r: StepResult)
    ensures r.regime == RegimeFor(th, stored, features)
    ensures r.gate == CheckAll(risk, facts, now, md, r.regime)
    ensures !r.gate.passed ==> r.outcome == Emitted(HoldFor(GateVeto(r.gate.reason)), up, down)
    ensures r.gate.passed ==> r.outcome == Decide(sig, up, down, pos, market, r.regime)
  {
    var regime := RegimeFor(th, stored, features);
    var gate := CheckAll(risk, facts, now, md, regime);
    if !gate.passed then StepResult(regime, gate, Emitted(HoldFor(GateVeto(gate.reason)), up, down))
    else StepResult(regime, gate, Decide(sig, up, down, pos, market, regime))
  }

  /** Only non-HOLD signals with a positive size reach the executor. */
  predicate Executes(s: TradingSignal) {
    s.kind != Hold && s.shares > 0
  }

  /** The regime callback of a classification: reported only when the value changes. */
  function RegimeEvents(symbol: string, from: Regime, to: Regime): seq<EngineEvent> {
    if from != to then [RegimeChanged(symbol, from, to)] else []
  }

  /** An update dated `date` starts a new trading day when a different date was seen before. */
  predicate NewDay(current: Option<int>, date: int) {
    current.Some? && current.value != date
  }

  /** The regimes a rollover leaves: all unknown on a new day, and an unknown one for a symbol
      tracked for the first time. */
  function RolledRegimes(regimes: map<string, Regime>, symbol: string, newDay: bool): map<string, Regime>
  {
    var kept := if newDay then map k | k in regimes :: Unknown else regimes;
    if symbol in kept then kept else kept[symbol := Unknown]
  }

  /** A vetoed update never trades and never moves the breakout counters. */
  lemma VetoNeverTrades(th: Thresholds, risk: RiskConfig, sig: SignalConfig, up: int, down: int,
                        facts: LedgerFacts, pos: Ledger.Position, stored: Regime,
                        market: MarketSnapshot, now: Instant, md: Option<MarketData>, features: Option<RegimeFeatures>)
    ensures var r := Step(th, risk, sig, up, down, facts, pos, stored, market, now, md, features);
      !r.gate.passed ==> r.outcome.Emitted? && !Executes(r.outcome.signal) && r.outcome.up == up && r.outcome.down == down
  {
  }

  /** An update in the first half hour is vetoed whatever the regime, before any signal. */
  lemma OpeningBufferVetoes(th: Thresholds, sig: SignalConfig, up: int, down: int, facts: LedgerFacts,
                            pos: Ledger.Position, stored: Regime, market: MarketSnapshot, day: int,
                            features: Option<RegimeFeatures>)
    requires facts.dailyPnl > -DefaultRisk.dailyLossLimit
    ensures var r := Step(th, DefaultRisk, sig, up, down, facts, pos, stored, market, At(day, Hm(9, 35)), None, features);
      r.outcome == Emitted(HoldFor(GateVeto(OpeningBuffer(BufferMinutes(DefaultRisk, r.regime)))), up, down)
  {
    var now := At(day, Hm(9, 35));
    AtParts(day, Hm(9, 35));
    var regime := RegimeFor(th, stored, features);
    var cs := Checks(DefaultRisk, facts, now, None, regime);
    var g := CheckAll(DefaultRisk, facts, now, None, regime);
    assert !cs[1].passed;
    var k :| 0 <= k < |cs| && cs[k] == g && forall j :: 0 <= j < k ==> cs[j].passed;
    assert k == 1;
  }

  /** The range day of the test suite at 10:30 on a fresh ledger: the gate passes and the generator
      buys one 25-share step. */
  lemma FullFlowStep(day: int)
    ensures var market := MarketSnapshot(99.0, 100.0, 101.0, 98.0, 100.0, 10000, 101.0, 99.0, false, 1.0, 0.0);
      var r := Step(Defaults, DefaultRisk, DefaultSignals, 0, 0, LedgerFacts(0.0, 0, None), Ledger.Position(0, 50, 25),
                    Range, market, At(day, Hm(10, 30)), None, None);
      r.gate.passed && r.outcome.Emitted? && r.outcome.signal.kind == Buy && r.outcome.signal.shares == 25
  {
    AtParts(day, Hm(10, 30));
    PassesIffAllClear(DefaultRisk, LedgerFacts(0.0, 0, None), At(day, Hm(10, 30)), None, Range);
  }

  /** What of a ledger one update can touch: the numbers, the trade log and the last trade time
      that the cooldown check reads. */
  datatype LedgerView = LedgerView(numbers: Ledger.Book, trades: seq<Ledger.TradeRecord>, lastTradeTime: Option<Instant>)

  const EmptyView := LedgerView(Ledger.EmptyBook, [], None)

  function ViewOf(st: Ledger.TradingState): LedgerView
    reads st
  {
    LedgerView(st.Numbers(), st.trades, st.lastTradeTime)
  }

  /** A ledger as a new trading day starts it: no position, no pending side, no trade. */
  ghost predicate Emptied(st: Ledger.TradingState)
    reads st
  {
    ViewOf(st) == EmptyView
  }

  /** The record the ledger appends for an executed signal, stamped with the wall clock. */
  function TradeRecordOf(symbol: string, s: TradingSignal, price: real, wallClock: Instant): Ledger.TradeRecord
  {
    var dir := if s.kind == Buy then Ledger.Direction.Buy else Ledger.Direction.Sell;
    Ledger.TradeRecord(symbol, dir, s.shares, price, wallClock, s.reason)
  }

  /** The reset loop of `_check_date_change`: every ledger starts the new day empty. */
  method ResetLedgers(states: map<string, Ledger.TradingState>)
    modifies states.Values
    ensures forall k :: k in states ==> states[k].Valid() && Emptied(states[k])
  {
    var todo := states.Keys;
    while todo != {}
      invariant todo <= states.Keys
      invariant forall k :: k in states && k !in todo ==> states[k].Valid() && Emptied(states[k])
      decreases |todo|
    {
      var k :| k in todo;
      states[k].ResetDaily();
      todo := todo - {k};
    }
  }

  /** `TradingEngine`. */
  class TradingEngine {
    const config: EngineConfig
    const thresholds: Thresholds
    const risk: RiskConfig
    const generator: SignalGenerator
    const executor: SimulatedExecutor
    var states: map<string, Ledger.TradingState>
    var regimes: map<string, Regime>
    var lastSignals: map<string, TradingSignal>
    var currentDate: Option<int>
    var events: seq<EngineEvent>

    /** Every tracked symbol has one ledger of its own and a regime; signals only for tracked symbols. */
    ghost predicate Valid()
      reads this, states.Values, generator, executor
    {
      && states.Keys == regimes.Keys
      && lastSignals.Keys <= states.Keys
      && (forall k :: k in states ==> states[k].Valid() && states[k].symbol == k)
      && generator.Valid() && executor.Valid()
    }

    constructor (config: EngineConfig, thresholds: Thresholds, risk: RiskConfig, sig: SignalConfig)
      ensures Valid() && fresh(generator) && fresh(executor)
      ensures this.config == config && this.thresholds == thresholds && this.risk == risk && generator.cfg == sig
      ensures states == map[] && regimes == map[] && lastSignals == map[] && currentDate == None && events == []
    {
      this.config := config;
      this.thresholds := thresholds;
      this.risk := risk;
      generator := new SignalGenerator(sig);
      executor := new SimulatedExecutor();
      states := map[];
      regimes := map[];
      lastSignals := map[];
      currentDate := None;
      events := [];
    }

    /** `add_symbol`: a known symbol keeps its ledger; a new one gets a fresh ledger sized from the
        configuration and an unknown regime. */
    method AddSymbol(symbol: string) returns (state: Ledger.TradingState)
      requires Valid()
      modifies this
      ensures Valid()
      ensures symbol in old(states) ==> state == old(states[symbol]) && states == old(states) && regimes == old(regimes)
      ensures symbol !in old(states) ==>
        && fresh(state) && states == old(states)[symbol := state] && regimes == old(regimes)[symbol := Unknown]
        && Emptied(state) && state.symbol == symbol && state.coreShares == config.coreShares
        && state.tMaxShares == config.tMaxShares && state.tStepShares == config.tStepShares
      ensures lastSignals == old(lastSignals) && currentDate == old(currentDate) && events == old(events)
    {
      if symbol in states {
        return states[symbol];
      }
      state := new Ledger.TradingState(symbol, config.coreShares, config.tMaxShares, config.tStepShares);
      assert forall k :: k in states ==> states[k] != state;
      states := states[symbol := state];
      regimes := regimes[symbol := Unknown];
    }

    /** `remove_symbol`: forget the ledger, the regime and the last signal. */
    method RemoveSymbol(symbol: string)
      requires Valid()
      modifies this
      ensures Valid()
      ensures states == old(states) - {symbol} && regimes == old(regimes) - {symbol}
      ensures lastSignals == old(lastSignals) - {symbol}
      ensures currentDate == old(currentDate) && events == old(events)
    {
      states := states - {symbol};
      regimes := regimes - {symbol};
      lastSignals := lastSignals - {symbol};
    }

    /** `set_regime`: ignored for untracked symbols; a change of value is reported to the callback. */
    method SetRegime(symbol: string, regime: Regime)
      requires Valid()
      modifies this
      ensures Valid()
      ensures symbol !in old(regimes) ==> regimes == old(regimes) && events == old(events)
      ensures symbol in old(regimes) ==>
        && regimes == old(regimes)[symbol := regime]
        && events == old(events) + (if old(regimes[symbol]) != regime then [RegimeChanged(symbol, old(regimes[symbol]), regime)] else [])
      ensures states == old(states) && lastSignals == old(lastSignals) && currentDate == old(currentDate)
    {
      if symbol !in regimes {
        return;
      }
      var previous := regimes[symbol];
      regimes := regimes[symbol := regime];
      if previous != regime {
        events := events + [RegimeChanged(symbol, previous, regime)];
      }
    }

    /** `get_regime`: unknown for an untracked symbol. */
    function GetRegime(symbol: string): (r: Regime)
      reads this
      ensures symbol !in regimes ==> r == Unknown
      ensures symbol in regimes ==> r == regimes[symbol]
    {
      if symbol in regimes then regimes[symbol] else Unknown
    }

    /** `_check_date_change`: the first date is only stored; any different date resets every
        ledger, makes every regime unknown and clears the breakout counters. */
    method CheckDateChange(date: int)
      requires Valid()
      modifies this, states.Values, generator
      ensures Valid()
      ensures currentDate == Some(date)
      ensures states == old(states) && lastSignals == old(lastSignals) && events == old(events)
      ensures !NewDay(old(currentDate), date) ==>
        regimes == old(regimes) && unchanged(generator) && forall k :: k in states ==> unchanged(states[k])
      ensures NewDay(old(currentDate), date) ==>
        && regimes == (map k | k in old(regimes) :: Unknown)
        && generator.breakoutUpBars == 0 && generator.breakoutDownBars == 0
        && forall k :: k in states ==> Emptied(states[k])
    {
      if currentDate == None {
        currentDate := Some(date);
        return;
      }
      if currentDate != Some(date) {
        ResetLedgers(states);
        regimes := map k | k in regimes :: Unknown;
        generator.ResetDaily();
      }
      currentDate := Some(date);
    }

    /** `_execute_signal`: place the order, then, in simulation mode only, record it in the ledger
        and report the trade. The ledger stamps the trade with the wall clock `wallClock`, not with
        the time of the market update. */
    method ExecuteSignal(symbol: string, signal: TradingSignal, price: real, wallClock: Instant)
      requires Valid() && symbol in states
      modifies this, states[symbol], executor
      ensures Valid()
      ensures states == old(states) && regimes == old(regimes) && lastSignals == old(lastSignals)
      ensures currentDate == old(currentDate)
      ensures executor.orderCount == old(executor.orderCount) + (if signal.kind == Hold then 0 else 1)
      ensures var st := states[symbol];
        if signal.kind != Hold && config.simulationMode then
          var record := TradeRecordOf(symbol, signal, price, wallClock);
          && st.trades == old(st.trades) + [record]
          && st.lastTradeTime == Some(wallClock)
          && (signal.kind == Buy ==> st.Numbers() == Ledger.ApplyBuy(old(st.Numbers()), signal.shares, price))
          && (signal.kind == Sell ==> st.Numbers() == Ledger.ApplySell(old(st.Numbers()), signal.shares, price))
          && events == old(events) + [TradeDone(symbol, record)]
        else
          unchanged(st) && events == old(events)
    {
      var state := states[symbol];
      if signal.kind == Buy {
        var id := executor.PlaceLimitBuy(symbol, signal.shares, price, config.priceImprovePct);
        if config.simulationMode {
          var trade := state.RecordBuy(signal.shares, price, signal.reason, wallClock);
          events := events + [TradeDone(symbol, trade)];
        }
      } else if signal.kind == Sell {
        var id := executor.PlaceLimitSell(symbol, signal.shares, price, config.priceImprovePct);
        if config.simulationMode {
          var trade := state.RecordSell(signal.shares, price, signal.reason, wallClock);
          events := events + [TradeDone(symbol, trade)];
        }
      }
    }

    /** Classification when features are supplied and the stored regime is unknown, through
        `set_regime`. */
    method ClassifyIfUnknown(symbol: string, features: Option<RegimeFeatures>) returns (regime: Regime)
      requires Valid() && symbol in states
      modifies this
      ensures Valid()
      ensures regime == RegimeFor(thresholds, old(regimes[symbol]), features)
      ensures regimes == old(regimes)[symbol := regime]
      ensures events == old(events) + RegimeEvents(symbol, old(regimes[symbol]), regime)
      ensures states == old(states) && lastSignals == old(lastSignals) && currentDate == old(currentDate)
    {
      regime := regimes[symbol];
      if features.Some? && regime == Unknown {
        var c := Classify(thresholds, features.value);
        SetRegime(symbol, c.regime);
        regime := c.regime;
      }
    }

    /** The risk gate, then the generator and the executor, for a symbol whose regime is settled. */
    method GateAndAct(symbol: string, market: MarketSnapshot, now: Instant, wallClock: Instant,
                      md: Option<MarketData>, regime: Regime) returns (signal: Option<TradingSignal>)
      requires Valid() && symbol in states
      modifies this, states[symbol], generator, executor
      ensures Valid()
      ensures states == old(states) && regimes == old(regimes) && currentDate == old(currentDate)
      ensures var st := states[symbol];
        var gate := CheckAll(risk, old(FactsOf(st)), now, md, regime);
        !gate.passed ==>
          && signal == Some(HoldFor(GateVeto(gate.reason))) && lastSignals == old(lastSignals)[symbol := signal.value]
          && events == old(events) && unchanged(generator, executor, st)
      ensures var st := states[symbol];
        var gate := CheckAll(risk, old(FactsOf(st)), now, md, regime);
        gate.passed ==>
          match Decide(generator.cfg, old(generator.breakoutUpBars), old(generator.breakoutDownBars), old(st.Sizing()), market, regime)
          case DivisionByZero =>
          && signal == None && lastSignals == old(lastSignals) && events == old(events)
            && generator.breakoutUpBars == old(generator.breakoutUpBars)
            && generator.breakoutDownBars == old(generator.breakoutDownBars)
            && unchanged(executor, st)
          case Emitted(s, up, down) =>
            && signal == Some(s) && lastSignals == old(lastSignals)[symbol := s]
            && generator.breakoutUpBars == up && generator.breakoutDownBars == down
            && Acted(symbol, old(ViewOf(st)), old(executor.orderCount), st, executor.orderCount, s, market.price, wallClock)
            && events == old(events) + [SignalIssued(symbol, s)] + TradeEvents(symbol, s, market.price, wallClock)
    {
      var gate := CheckAll(risk, FactsOf(states[symbol]), now, md, regime);
      if !gate.passed {
        var hold := HoldFor(GateVeto(gate.reason));
        lastSignals := lastSignals[symbol := hold];
        return Some(hold);
      }
      signal := Act(symbol, market, wallClock, regime);
    }

    /** Past the gate: generate, remember and report the signal, then execute it. */
    method Act(symbol: string, market: MarketSnapshot, wallClock: Instant, regime: Regime) returns (signal: Option<TradingSignal>)
      requires Valid() && symbol in states
      modifies this, states[symbol], generator, executor
      ensures Valid()
      ensures states == old(states) && regimes == old(regimes) && currentDate == old(currentDate)
      ensures var st := states[symbol];
        match Decide(generator.cfg, old(generator.breakoutUpBars), old(generator.breakoutDownBars), old(st.Sizing()), market, regime)
        case DivisionByZero =>
          && signal == None && lastSignals == old(lastSignals) && events == old(events)
          && generator.breakoutUpBars == old(generator.breakoutUpBars)
          && generator.breakoutDownBars == old(generator.breakoutDownBars)
          && unchanged(executor, st)
        case Emitted(s, up, down) =>
          && signal == Some(s) && lastSignals == old(lastSignals)[symbol := s]
          && generator.breakoutUpBars == up && generator.breakoutDownBars == down
          && Acted(symbol, old(ViewOf(st)), old(executor.orderCount), st, executor.orderCount, s, market.price, wallClock)
          && events == old(events) + [SignalIssued(symbol, s)] + TradeEvents(symbol, s, market.price, wallClock)
    {
      var state := states[symbol];
      signal := generator.Generate(state.Sizing(), market, regime);
      if signal.Some? {
        Emit(symbol, signal.value, market.price, wallClock);
      }
    }

    /** Remember and report a generated signal, then execute it. */
    method Emit(symbol: string, s: TradingSignal, price: real, wallClock: Instant)
      requires Valid() && symbol in states
      modifies this, states[symbol], executor
      ensures Valid()
      ensures states == old(states) && regimes == old(regimes) && currentDate == old(currentDate)
      ensures lastSignals == old(lastSignals)[symbol := s]
      ensures Acted(symbol, old(ViewOf(states[symbol])), old(executor.orderCount), states[symbol], executor.orderCount, s, price, wallClock)
      ensures events == old(events) + [SignalIssued(symbol, s)] + TradeEvents(symbol, s, price, wallClock)
    {
      lastSignals := lastSignals[symbol := s];
      events := events + [SignalIssued(symbol, s)];
      if Executes(s) {
        ExecuteSignal(symbol, s, price, wallClock);
      }
    }

    /** The ledger and the executor after a passed signal: one order per executed signal, and in
        simulation mode the fill recorded at the update's price and appended to the trade log;
        otherwise the ledger, its trade log and its last trade time are as they were. */
    ghost predicate Acted(symbol: string, before: LedgerView, ordersBefore: nat, st: Ledger.TradingState, orders: nat,
                          s: TradingSignal, price: real, wallClock: Instant)
      reads st
    {
      && orders == ordersBefore + (if Executes(s) then 1 else 0)
      && if Executes(s) && config.simulationMode then
           && st.trades == before.trades + [TradeRecordOf(symbol, s, price, wallClock)]
           && st.lastTradeTime == Some(wallClock)
           && (s.kind == Buy ==> st.Numbers() == Ledger.ApplyBuy(before.numbers, s.shares, price))
           && (s.kind == Sell ==> st.Numbers() == Ledger.ApplySell(before.numbers, s.shares, price))
         else ViewOf(st) == before
    }

    /** The trade callback of an executed signal, in simulation mode only. */
    function TradeEvents(symbol: string, s: TradingSignal, price: real, wallClock: Instant): seq<EngineEvent>
    {
      if Executes(s) && config.simulationMode then
        [TradeDone(symbol, TradeRecordOf(symbol, s, price, wallClock))]
      else []
    }

    /** What one update leaves in the ledger `st`, the executor and the event log, given the decision
        `r` taken for a symbol whose stored regime was `stored`: a classification that changes the
        regime is reported first; a signal that passed the gate is reported and then executed; a
        veto or a strategy that failed leaves the ledger and the executor as they were. */
    ghost predicate Effects(symbol: string, r: StepResult, stored: Regime, eventsBefore: seq<EngineEvent>,
                            before: LedgerView, ordersBefore: nat, st: Ledger.TradingState,
                            price: real, wallClock: Instant)
      reads this, st, executor
    {
      var logged := eventsBefore + RegimeEvents(symbol, stored, r.regime);
      if r.gate.passed && r.outcome.Emitted? then
        && Acted(symbol, before, ordersBefore, st, executor.orderCount, r.outcome.signal, price, wallClock)
        && events == logged + [SignalIssued(symbol, r.outcome.signal)] + TradeEvents(symbol, r.outcome.signal, price, wallClock)
      else
        && events == logged && executor.orderCount == ordersBefore && ViewOf(st) == before
    }

    /** One update for a tracked symbol after the rollover: classify if needed, then gate and act.
        The signal, the breakout counters, the ledger, the executor and the event log all follow
        `Step` on the symbol's ledger, stored regime and counters. */
    method Process(symbol: string, market: MarketSnapshot, now: Instant, wallClock: Instant,
                   md: Option<MarketData>, features: Option<RegimeFeatures>) returns (signal: Option<TradingSignal>)
      requires Valid() && symbol in states
      modifies this, states[symbol], generator, executor
      ensures Valid()
      ensures states == old(states) && currentDate == old(currentDate)
      ensures forall k :: k in states && k != symbol ==> unchanged(states[k])
      ensures regimes == old(regimes)[symbol := RegimeFor(thresholds, old(regimes[symbol]), features)]
      ensures signal.Some? ==> lastSignals == old(lastSignals)[symbol := signal.value]
      ensures signal.None? ==> lastSignals == old(lastSignals)
      ensures var r := Step(thresholds, risk, generator.cfg, old(generator.breakoutUpBars), old(generator.breakoutDownBars),
                            old(FactsOf(states[symbol])), old(states[symbol].Sizing()), old(regimes[symbol]), market, now, md, features);
        && (r.outcome.DivisionByZero? <==> signal.None?)
        && (r.outcome.DivisionByZero? ==>
              generator.breakoutUpBars == old(generator.breakoutUpBars)
              && generator.breakoutDownBars == old(generator.breakoutDownBars))
        && (r.outcome.Emitted? ==>
              signal == Some(r.outcome.signal)
              && generator.breakoutUpBars == r.outcome.up && generator.breakoutDownBars == r.outcome.down)
        && Effects(symbol, r, old(regimes[symbol]), old(events), old(ViewOf(states[symbol])),
                   old(executor.orderCount), states[symbol], market.price, wallClock)
    {
      var regime := ClassifyIfUnknown(symbol, features);
      assert unchanged(states[symbol], generator, executor);
      signal := GateAndAct(symbol, market, now, wallClock, md, regime);
    }

    /** The first half of an update: the day rollover, then tracking the symbol. On a new day every
        ledger is emptied, every regime becomes unknown and the breakout counters restart; a symbol
        seen for the first time gets an empty ledger sized from the configuration and an unknown
        regime; everything else is kept. */
    method Rollover(symbol: string, date: int)
      requires Valid()
      modifies this, states.Values, generator
      ensures Valid() && currentDate == Some(date)
      ensures states.Keys == old(states.Keys) + {symbol} && regimes.Keys == states.Keys
      ensures forall k :: k in old(states) ==> states[k] == old(states[k])
      ensures lastSignals == old(lastSignals) && events == old(events)
      ensures regimes == RolledRegimes(old(regimes), symbol, NewDay(old(currentDate), date))
      ensures !NewDay(old(currentDate), date) ==>
        && unchanged(generator) && (forall k :: k in old(states) ==> unchanged(states[k]))
        && forall k :: k in old(regimes) ==> regimes[k] == old(regimes[k])
      ensures NewDay(old(currentDate), date) ==>
        && generator.breakoutUpBars == 0 && generator.breakoutDownBars == 0
        && (forall k :: k in old(regimes) ==> regimes[k] == Unknown)
        && forall k :: k in old(states) ==> Emptied(states[k])
      ensures symbol !in old(states) ==>
        && fresh(states[symbol]) && Emptied(states[symbol]) && regimes[symbol] == Unknown
        && states[symbol].coreShares == config.coreShares
        && states[symbol].tMaxShares == config.tMaxShares && states[symbol].tStepShares == config.tStepShares
    {
      CheckDateChange(date);
      var state := AddSymbol(symbol);
    }

    /** `on_market_update`: roll the day over on a new date, track the symbol if it is new, then
        process the update. `None` stands for the division by zero the range strategy raises.
        The update is decided by `Step` on the ledger, regime and counters as the rollover left
        them: the old ones when the symbol was tracked and the day goes on, an empty ledger, an
        unknown regime or zero counters where the rollover restarted them. */
    method OnMarketUpdate(symbol: string, market: MarketSnapshot, now: Instant, wallClock: Instant,
                          md: Option<MarketData>, features: Option<RegimeFeatures>) returns (signal: Option<TradingSignal>)
      requires Valid()
      modifies this, states.Values, generator, executor
      ensures Valid() && currentDate == Some(DayOf(now))
      ensures states.Keys == old(states.Keys) + {symbol}
      ensures forall k :: k in old(states) ==> states[k] == old(states[k])
      ensures signal.Some? ==> lastSignals == old(lastSignals)[symbol := signal.value]
      ensures signal.None? ==> lastSignals == old(lastSignals)
      ensures !NewDay(old(currentDate), DayOf(now)) ==> forall k :: k in old(states) && k != symbol ==> unchanged(states[k])
      ensures NewDay(old(currentDate), DayOf(now)) ==> forall k :: k in old(states) && k != symbol ==> Emptied(states[k])
      ensures var newDay := NewDay(old(currentDate), DayOf(now));
        var kept := symbol in old(states) && !newDay;
        var st := states[symbol];
        var facts := if kept then old(FactsOf(states[symbol])) else LedgerFacts(0.0, 0, None);
        var pos := Ledger.Position(if kept then old(states[symbol].tInventory) else 0, st.tMaxShares, st.tStepShares);
        var stored := if kept then old(regimes[symbol]) else Unknown;
        var up := if newDay then 0 else old(generator.breakoutUpBars);
        var down := if newDay then 0 else old(generator.breakoutDownBars);
        var before := if kept then old(ViewOf(states[symbol])) else EmptyView;
        var r := Step(thresholds, risk, generator.cfg, up, down, facts, pos, stored, market, now, md, features);
        && (symbol !in old(states) ==> st.tMaxShares == config.tMaxShares && st.tStepShares == config.tStepShares)
        && regimes == RolledRegimes(old(regimes), symbol, newDay)[symbol := r.regime]
        && (r.outcome.DivisionByZero? <==> signal.None?)
        && (r.outcome.DivisionByZero? ==> generator.breakoutUpBars == up && generator.breakoutDownBars == down)
        && (r.outcome.Emitted? ==>
              signal == Some(r.outcome.signal)
              && generator.breakoutUpBars == r.outcome.up && generator.breakoutDownBars == r.outcome.down)
        && Effects(symbol, r, stored, old(events), before, old(executor.orderCount), st, market.price, wallClock)
    {
      ghost var newDay := NewDay(currentDate, DayOf(now));
      ghost var kept := symbol in states && !newDay;
      ghost var facts := if kept then FactsOf(states[symbol]) else LedgerFacts(0.0, 0, None);
      ghost var inventory := if kept then states[symbol].tInventory else 0;
      ghost var stored := if kept then regimes[symbol] else Unknown;
      ghost var before := if kept then ViewOf(states[symbol]) else EmptyView;
      Rollover(symbol, DayOf(now));
      ghost var st := states[symbol];
      assert kept ==> unchanged(st);
      assert !kept ==> ViewOf(st) == EmptyView;
      assert FactsOf(st) == facts && st.tInventory == inventory && ViewOf(st) == before && regimes[symbol] == stored;
      signal := Process(symbol, market, now, wallClock, md, features);
    }
  }
}
