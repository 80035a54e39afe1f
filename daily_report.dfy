/** The daily report's bookkeeping (src/tbot/report/daily_report.py): per-symbol classification
    results, the tradeability verdict drawn from them, and the day's signals. Rendering and
    saving are not part of this model. */
module DailyReports {
  import opened Wrappers
  import opened Clock
  import opened Features
  import opened RegimeRules

  /** The fixed reasons a symbol is not tradeable. */
  datatype NonTradeReason = LowConfidenceTrend | RangeDay | EventDay | UnclearDay

  datatype Tradeability = Tradeable | NotTradeable(reason: NonTradeReason)

  /** The verdict of `add_regime_result`: a trend day is tradeable from confidence 0.5 on; a
      range, event or unclassified day never is, each for its own reason. */
  function Assess(c: Classification): (t: Tradeability)
    ensures t.Tradeable? <==> (c.regime == TrendUp || c.regime == TrendDown) && c.confidence >= 0.5
    ensures (c.regime == TrendUp || c.regime == TrendDown) && c.confidence < 0.5 ==> t == NotTradeable(LowConfidenceTrend)
    ensures c.regime == Range ==> t == NotTradeable(RangeDay)
    ensures c.regime == Event ==> t == NotTradeable(EventDay)
    ensures c.regime == Unknown ==> t == NotTradeable(UnclearDay)
  {
    match c.regime
    case TrendUp | TrendDown => if c.confidence >= 0.5 then Tradeable else NotTradeable(LowConfidenceTrend)
    case Range => NotTradeable(RangeDay)
    case Event => NotTradeable(EventDay)
    case Unknown => NotTradeable(UnclearDay)
  }

  /** `SignalSummary`. */
  datatype SignalSummary = SignalSummary(
    symbol: string, timestamp: Instant, signalType: string, direction: Option<string>,
    entryPrice: Option<real>, stopLoss: Option<real>, targetPrice: Option<real>,
    rRatio: Option<real>, notes: string)

  /** The part of a report that `add_regime_result` writes. */
  datatype Verdicts = Verdicts(
    results: map<string, Classification>, features: map<string, RegimeFeatures>,
    tradeable: seq<string>, reasons: map<string, NonTradeReason>)

  const NoVerdicts := Verdicts(map[], map[], [], map[])

  /** One `add_regime_result` on values: both maps are overwritten under the symbol, and the
      verdict either appends the symbol or records the reason. Nothing is ever taken back. */
  function Record(v: Verdicts, symbol: string, c: Classification, f: RegimeFeatures): (r: Verdicts)
    ensures symbol in r.results && r.results[symbol] == c && symbol in r.features && r.features[symbol] == f
    ensures v.tradeable <= r.tradeable && |r.tradeable| <= |v.tradeable| + 1
    ensures v.results.Keys <= r.results.Keys && v.reasons.Keys <= r.reasons.Keys
  {
    var base := v.(results := v.results[symbol := c], features := v.features[symbol := f]);
    match Assess(c)
    case Tradeable => base.(tradeable := v.tradeable + [symbol])
    case NotTradeable(r) => base.(reasons := v.reasons[symbol := r])
  }

  /** Every stored result has its features, and every tradeable symbol or reason belongs to a
      stored result. */
  predicate Consistent(v: Verdicts) {
    && v.results.Keys == v.features.Keys
    && (forall k :: 0 <= k < |v.tradeable| ==> v.tradeable[k] in v.results)
    && v.reasons.Keys <= v.results.Keys
  }

  lemma RecordConsistent(v: Verdicts, symbol: string, c: Classification, f: RegimeFeatures)
    requires Consistent(v)
    ensures Consistent(Record(v, symbol, c, f))
    ensures Record(v, symbol, c, f).results[symbol] == c && Record(v, symbol, c, f).features[symbol] == f
    ensures Assess(c).Tradeable? ==> Record(v, symbol, c, f).tradeable == v.tradeable + [symbol]
                                     && Record(v, symbol, c, f).reasons == v.reasons
    ensures Assess(c).NotTradeable? ==> Record(v, symbol, c, f).tradeable == v.tradeable
                                        && Record(v, symbol, c, f).reasons == v.reasons[symbol := Assess(c).reason]
  {
  }

  /** Re-adding a tradeable symbol lists it twice, and a symbol first judged low-confidence and
      then tradeable keeps its old reason beside its new listing. */
  lemma RepeatedRecords(v: Verdicts, symbol: string, weak: Classification, strong: Classification, f: RegimeFeatures)
    requires weak.regime == TrendUp && weak.confidence < 0.5
    requires strong.regime == TrendUp && strong.confidence >= 0.5
    ensures Record(Record(v, symbol, strong, f), symbol, strong, f).tradeable == v.tradeable + [symbol, symbol]
    ensures var w := Record(Record(v, symbol, weak, f), symbol, strong, f);
            symbol in w.tradeable && w.reasons[symbol] == LowConfidenceTrend && w.results[symbol] == strong
  {
    assert v.tradeable + [symbol] + [symbol] == v.tradeable + [symbol, symbol];
    var w := Record(Record(v, symbol, weak, f), symbol, strong, f);
    assert w.tradeable[|w.tradeable| - 1] == symbol;
  }

  /** `generate_daily_report`'s loop on values: results in their dictionary order, skipping the
      symbols without features. */
  function RecordAll(v: Verdicts, entries: seq<(string, Classification)>, features: map<string, RegimeFeatures>): (r: Verdicts)
    ensures v.tradeable <= r.tradeable && |r.tradeable| <= |v.tradeable| + |entries|
    ensures v.results.Keys <= r.results.Keys && v.reasons.Keys <= r.reasons.Keys
    decreases |entries|
  {
    if entries == [] then v
    else
      var (symbol, c) := entries[0];
      var next := if symbol in features then Record(v, symbol, c, features[symbol]) else v;
      RecordAll(next, entries[1..], features)
  }

  predicate DistinctSymbols(entries: seq<(string, Classification)>) {
    forall i, j :: 0 <= i < j < |entries| ==> entries[i].0 != entries[j].0
  }

  /** With distinct symbols, as a dictionary has them, the report holds a result exactly for the
      symbols that have features; such a symbol is listed as tradeable exactly when its verdict
      says so, and otherwise carries its verdict's reason. */
  lemma {:induction false} RecordAllExact(v: Verdicts, entries: seq<(string, Classification)>,
                                          features: map<string, RegimeFeatures>)
    requires DistinctSymbols(entries)
    requires forall i :: 0 <= i < |entries| ==> entries[i].0 !in v.results && entries[i].0 !in v.tradeable
    requires Consistent(v)
    ensures Consistent(RecordAll(v, entries, features))
    ensures forall i :: 0 <= i < |entries| && entries[i].0 in features ==>
      var (s, c) := entries[i];
      var w := RecordAll(v, entries, features);
      && s in w.results && w.results[s] == c && w.features[s] == features[s]
      && (s in w.tradeable <==> Assess(c).Tradeable?)
      && (Assess(c).NotTradeable? ==> s in w.reasons && w.reasons[s] == Assess(c).reason)
    ensures forall s :: s in RecordAll(v, entries, features).results ==>
      s in v.results || exists i :: 0 <= i < |entries| && entries[i].0 == s && s in features
    decreases |entries|
  {
    if entries != [] {
      var (symbol, c) := entries[0];
      var next := if symbol in features then Record(v, symbol, c, features[symbol]) else v;
      var rest := entries[1..];
      if symbol in features {
        RecordConsistent(v, symbol, c, features[symbol]);
      }
      assert DistinctSymbols(rest) by {
        forall i, j | 0 <= i < j < |rest| ensures rest[i].0 != rest[j].0 {
          assert rest[i] == entries[i + 1] && rest[j] == entries[j + 1];
        }
      }
      forall i | 0 <= i < |rest| ensures rest[i].0 !in next.results && rest[i].0 !in next.tradeable {
        assert rest[i] == entries[i + 1];
        assert entries[0].0 != entries[i + 1].0;
      }
      RecordAllExact(next, rest, features);
      var w := RecordAll(next, rest, features);
      assert w == RecordAll(v, entries, features);
      forall i | 0 <= i < |entries| && entries[i].0 in features
        ensures
          var (s, c) := entries[i];
          && s in w.results && w.results[s] == c && w.features[s] == features[s]
          && (s in w.tradeable <==> Assess(c).Tradeable?)
          && (Assess(c).NotTradeable? ==> s in w.reasons && w.reasons[s] == Assess(c).reason)
      {
        if i == 0 {
          FirstSurvives(next, rest, features, symbol);
        } else {
          assert entries[i] == rest[i - 1];
        }
      }
      forall s | s in w.results
        ensures s in v.results || exists i :: 0 <= i < |entries| && entries[i].0 == s && s in features
      {
        if s !in v.results {
          if s in next.results {
            assert entries[0].0 == s;
          } else {
            var i :| 0 <= i < |rest| && rest[i].0 == s && s in features;
            assert entries[i + 1].0 == s;
          }
        }
      }
    }
  }

  /** Later symbols, all different from `symbol`, leave its entries alone. */
  lemma {:induction false} FirstSurvives(v: Verdicts, entries: seq<(string, Classification)>,
                                         features: map<string, RegimeFeatures>, symbol: string)
    requires forall i :: 0 <= i < |entries| ==> entries[i].0 != symbol
    ensures var w := RecordAll(v, entries, features);
      && (symbol in v.results ==> symbol in w.results && w.results[symbol] == v.results[symbol])
      && (symbol in v.features ==> symbol in w.features && w.features[symbol] == v.features[symbol])
      && (symbol in w.tradeable <==> symbol in v.tradeable)
      && (symbol in v.reasons ==> symbol in w.reasons && w.reasons[symbol] == v.reasons[symbol])
    decreases |entries|
  {
    if entries != [] {
      var (s, c) := entries[0];
      var next := if s in features then Record(v, s, c, features[s]) else v;
      assert s != symbol;
      assert symbol in next.tradeable <==> symbol in v.tradeable;
      FirstSurvives(next, entries[1..], features, symbol);
    }
  }

  /** `DailyReport`. */
  class DailyReport {
    const date: string
    const generatedAt: Instant
    const notes: string
    var regimeResults: map<string, Classification>
    var features: map<string, RegimeFeatures>
    var signals: seq<SignalSummary>
    var tradeableSymbols: seq<string>
    var nonTradeableReasons: map<string, NonTradeReason>

    function Snapshot(): Verdicts
      reads this
    {
      Verdicts(regimeResults, features, tradeableSymbols, nonTradeableReasons)
    }

    /** An empty report; `generated_at` is the wall-clock reading passed in. */
    constructor (date: string, generatedAt: Instant, notes: string)
      ensures this.date == date && this.generatedAt == generatedAt && this.notes == notes
      ensures Snapshot() == NoVerdicts && signals == []
    {
      this.date := date;
      this.generatedAt := generatedAt;
      this.notes := notes;
      regimeResults := map[];
      features := map[];
      signals := [];
      tradeableSymbols := [];
      nonTradeableReasons := map[];
    }

    /** `add_regime_result`. */
    method AddRegimeResult(symbol: string, result: Classification, feat: RegimeFeatures)
      modifies this
      ensures Snapshot() == Record(old(Snapshot()), symbol, result, feat)
      ensures signals == old(signals)
    {
      regimeResults := regimeResults[symbol := result];
      features := features[symbol := feat];
      if result.regime == TrendUp || result.regime == TrendDown {
        if result.confidence >= 0.5 {
          tradeableSymbols := tradeableSymbols + [symbol];
        } else {
          nonTradeableReasons := nonTradeableReasons[symbol := LowConfidenceTrend];
        }
      } else if result.regime == Range {
        nonTradeableReasons := nonTradeableReasons[symbol := RangeDay];
      } else if result.regime == Event {
        nonTradeableReasons := nonTradeableReasons[symbol := EventDay];
      } else {
        nonTradeableReasons := nonTradeableReasons[symbol := UnclearDay];
      }
    }

    /** `add_signal`: appended in call order. */
    method AddSignal(signal: SignalSummary)
      modifies this
      ensures signals == old(signals) + [signal] && Snapshot() == old(Snapshot())
    {
      signals := signals + [signal];
    }
  }

  /** `generate_daily_report`, with the results dictionary given as its entries in order. */
  method GenerateDailyReport(date: string, generatedAt: Instant, regimeResults: seq<(string, Classification)>,
                             features: map<string, RegimeFeatures>, signals: Option<seq<SignalSummary>>,
                             notes: string)
    returns (report: DailyReport)
    ensures fresh(report)
    ensures report.date == date && report.generatedAt == generatedAt && report.notes == notes
    ensures report.Snapshot() == RecordAll(NoVerdicts, regimeResults, features)
    ensures report.signals == signals.GetOr([])
  {
    report := new DailyReport(date, generatedAt, notes);
    var i := 0;
    while i < |regimeResults|
      invariant 0 <= i <= |regimeResults|
      invariant report.date == date && report.generatedAt == generatedAt && report.notes == notes
      invariant report.signals == []
      invariant RecordAll(report.Snapshot(), regimeResults[i..], features) == RecordAll(NoVerdicts, regimeResults, features)
    {
      var (symbol, result) := regimeResults[i];
      assert regimeResults[i..][1..] == regimeResults[i + 1..];
      if symbol in features {
        report.AddRegimeResult(symbol, result, features[symbol]);
      }
      i := i + 1;
    }
    if signals.Some? {
      var j := 0;
      while j < |signals.value|
        invariant 0 <= j <= |signals.value|
        invariant report.signals == signals.value[..j]
        invariant report.Snapshot() == RecordAll(NoVerdicts, regimeResults, features)
        invariant report.date == date && report.generatedAt == generatedAt && report.notes == notes
      {
        report.AddSignal(signals.value[j]);
        assert signals.value[..j + 1] == signals.value[..j] + [signals.value[j]];
        j := j + 1;
      }
      assert signals.value[..j] == signals.value;
    }
  }
}
