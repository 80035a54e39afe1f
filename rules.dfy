/** Rule-based day-type classification (src/tbot/regime/rules.py).
    Every score is a sum of guarded constant weights; the classification is the first maximum. */
module RegimeRules {
  import opened Wrappers
  import opened Num
  import opened Features

  /** The day types (`Regime`). */
  datatype Regime = TrendUp | TrendDown | Range | Event | Unknown

  /** The explanations the classifier collects, with the numbers each message prints. */
  datatype RuleReason =
    | LargeGap(gapPct: real, threshold: real)
    | HeavyEarlyVolume(ratio: real)
    | VolumeSurge(ratio: real)
    | AboveVwapTime(pct: real)
    | BelowVwapTime(pct: real)
    | FewCrosses(count: int)
    | OrUpHeld
    | OrDownHeld
    | WideRange(rangeAtrRatio: real)
    | ManyCrosses(count: int)
    | FalseBreakouts(count: int)
    | NarrowRange(rangeAtrRatio: real)
    | BalancedAroundVwap
    | AllScoresLow
    | IntradayCaution(progress: real)

  /** The classifier's thresholds (`RegimeClassifier` fields). `trendOrBreakoutHoldPct` is
      configured but never consulted by the rules. */
  datatype Thresholds = Thresholds(
    trendVwapSameSidePct: real,
    trendOrBreakoutHoldPct: real,
    trendMinRangeAtrRatio: real,
    rangeVwapCrossMin: int,
    rangeOrFalseBreakoutCount: int,
    rangeMaxRangeAtrRatio: real,
    eventEarlyVolumeRatio: real,
    eventGapPct: real,
    eventVolumeRatio: real)

  const Defaults := Thresholds(0.70, 0.60, 1.2, 4, 2, 0.8, 0.5, 0.015, 2.0)

  /** `ClassificationResult`. */
  datatype Classification = Classification(regime: Regime, confidence: real, reasons: seq<RuleReason>,
                                           features: RegimeFeatures)

  // ----- event evidence -----

  predicate GapHit(th: Thresholds, f: RegimeFeatures) { Abs(f.gapPct) >= th.eventGapPct }
  predicate EarlyHit(th: Thresholds, f: RegimeFeatures) { f.earlyVolumeRatio >= th.eventEarlyVolumeRatio }
  predicate SurgeHit(th: Thresholds, f: RegimeFeatures) { f.volumeRatio.Some? && f.volumeRatio.value >= th.eventVolumeRatio }

  /** `_score_event`: 0.4 for a large gap, 0.3 for heavy early volume, 0.3 for a volume surge.
      An event day (score at least 0.7) needs the gap and one of the two volume signs. */
  function ScoreEvent(th: Thresholds, f: RegimeFeatures): (r: (real, seq<RuleReason>))
    ensures 0.0 <= r.0 <= 1.0
    ensures r.0 >= 0.7 <==> GapHit(th, f) && (EarlyHit(th, f) || SurgeHit(th, f))
    ensures r.0 == 0.0 <==> r.1 == []
    ensures r.0 == 1.0 <==> GapHit(th, f) && EarlyHit(th, f) && SurgeHit(th, f)
    ensures |r.1| <= 3
  {
    var s1 := if GapHit(th, f) then 0.4 else 0.0;
    var r1 := if GapHit(th, f) then [LargeGap(f.gapPct, th.eventGapPct)] else [];
    var s2 := s1 + (if EarlyHit(th, f) then 0.3 else 0.0);
    var r2 := r1 + (if EarlyHit(th, f) then [HeavyEarlyVolume(f.earlyVolumeRatio)] else []);
    var s3 := s2 + (if SurgeHit(th, f) then 0.3 else 0.0);
    var r3 := r2 + (if SurgeHit(th, f) then [VolumeSurge(f.volumeRatio.value)] else []);
    (Min(s3, 1.0), r3)
  }

  // ----- trend evidence -----

  /** `_score_trend`: each piece of evidence goes to exactly one side, so the two sides share
      at most the full weight of 1. */
  function ScoreTrend(th: Thresholds, f: RegimeFeatures): (r: (real, real, seq<RuleReason>))
    ensures 0.0 <= r.0 <= 1.0 && 0.0 <= r.1 <= 1.0
    ensures r.0 + r.1 <= 1.0
    ensures r.0 + r.1 == 0.0 <==> r.2 == []
    ensures f.pctTimeAboveVwap >= th.trendVwapSameSidePct ==> r.0 >= 0.4
    ensures f.pctTimeAboveVwap < th.trendVwapSameSidePct && f.pctTimeBelowVwap >= th.trendVwapSameSidePct ==> r.1 >= 0.4
  {
    var side := if f.pctTimeAboveVwap >= th.trendVwapSameSidePct then (0.4, 0.0, [AboveVwapTime(f.pctTimeAboveVwap)])
                else if f.pctTimeBelowVwap >= th.trendVwapSameSidePct then (0.0, 0.4, [BelowVwapTime(f.pctTimeBelowVwap)])
                else (0.0, 0.0, []);
    var cross := if f.vwapCrossCount <= 2 then
                   (if f.pctTimeAboveVwap > 0.5 then (0.2, 0.0) else (0.0, 0.2), [FewCrosses(f.vwapCrossCount)])
                 else ((0.0, 0.0), []);
    var held := if f.orUpBreakoutCount >= 1 && f.orDownBreakoutCount == 0 then (0.2, 0.0, [OrUpHeld])
                else if f.orDownBreakoutCount >= 1 && f.orUpBreakoutCount == 0 then (0.0, 0.2, [OrDownHeld])
                else (0.0, 0.0, []);
    var wide := if f.rangeAtrRatio.Some? && f.rangeAtrRatio.value >= th.trendMinRangeAtrRatio then
                  (if f.dayReturn > 0.0 then (0.2, 0.0) else (0.0, 0.2), [WideRange(f.rangeAtrRatio.value)])
                else ((0.0, 0.0), []);
    var up := side.0 + cross.0.0 + held.0 + wide.0.0;
    var down := side.1 + cross.0.1 + held.1 + wide.0.1;
    (Min(up, 1.0), Min(down, 1.0), side.2 + cross.1 + held.2 + wide.1)
  }

  /** The same day seen in a mirror: above and below the VWAP swapped, breakouts swapped,
      the day's return negated. */
  function Mirror(f: RegimeFeatures): RegimeFeatures {
    f.(pctTimeAboveVwap := f.pctTimeBelowVwap, pctTimeBelowVwap := f.pctTimeAboveVwap,
       orUpBreakoutCount := f.orDownBreakoutCount, orDownBreakoutCount := f.orUpBreakoutCount,
       dayReturn := -f.dayReturn)
  }

  /** The trend rules treat the two directions alike: on a day whose VWAP fractions add up to
      one, that is not split evenly and that did not close flat, mirroring the day swaps the
      up and down scores. */
  lemma TrendMirror(th: Thresholds, f: RegimeFeatures)
    requires th.trendVwapSameSidePct > 0.5
    requires f.pctTimeAboveVwap + f.pctTimeBelowVwap == 1.0
    requires f.pctTimeAboveVwap != 0.5 && f.dayReturn != 0.0
    ensures ScoreTrend(th, Mirror(f)).0 == ScoreTrend(th, f).1
    ensures ScoreTrend(th, Mirror(f)).1 == ScoreTrend(th, f).0
  {
  }

  // ----- range evidence -----

  /** How evenly the price split its time around the VWAP: 1 for half and half, 0 for all on one side. */
  function VwapBalance(f: RegimeFeatures): real {
    1.0 - Abs(f.pctTimeAboveVwap - 0.5) * 2.0
  }

  /** `_score_range`: 0.4 for frequent crosses, 0.3 for false breakouts, 0.3 for a narrow range
      against the ATR, and a flat 0.2 when the time around the VWAP is balanced; capped at 1. */
  function ScoreRange(th: Thresholds, f: RegimeFeatures): (r: (real, seq<RuleReason>))
    ensures 0.0 <= r.0 <= 1.0
    ensures r.0 == 0.0 <==> r.1 == []
    ensures f.vwapCrossCount >= th.rangeVwapCrossMin ==> r.0 >= 0.4
    ensures VwapBalance(f) >= 0.6 ==> r.0 >= 0.2
    ensures r.0 == 1.0 <== f.vwapCrossCount >= th.rangeVwapCrossMin && f.orFalseBreakoutCount >= th.rangeOrFalseBreakoutCount
                           && f.rangeAtrRatio.Some? && f.rangeAtrRatio.value <= th.rangeMaxRangeAtrRatio
  {
    var s1 := if f.vwapCrossCount >= th.rangeVwapCrossMin then 0.4 else 0.0;
    var r1 := if f.vwapCrossCount >= th.rangeVwapCrossMin then [ManyCrosses(f.vwapCrossCount)] else [];
    var s2 := s1 + (if f.orFalseBreakoutCount >= th.rangeOrFalseBreakoutCount then 0.3 else 0.0);
    var r2 := r1 + (if f.orFalseBreakoutCount >= th.rangeOrFalseBreakoutCount then [FalseBreakouts(f.orFalseBreakoutCount)] else []);
    var narrow := f.rangeAtrRatio.Some? && f.rangeAtrRatio.value <= th.rangeMaxRangeAtrRatio;
    var s3 := s2 + (if narrow then 0.3 else 0.0);
    var r3 := r2 + (if narrow then [NarrowRange(f.rangeAtrRatio.value)] else []);
    var s4 := s3 + (if VwapBalance(f) >= 0.6 then 0.2 else 0.0);
    var r4 := r3 + (if VwapBalance(f) >= 0.6 then [BalancedAroundVwap] else []);
    (Min(s4, 1.0), r4)
  }

  /** The range score does not care which side of the VWAP the price favoured. */
  lemma RangeMirror(th: Thresholds, f: RegimeFeatures)
    requires f.pctTimeAboveVwap + f.pctTimeBelowVwap == 1.0
    ensures ScoreRange(th, Mirror(f)).0 == ScoreRange(th, f).0
  {
    assert VwapBalance(Mirror(f)) == VwapBalance(f);
  }

  // ----- classification -----

  /** Index of the first maximum of `s`, as Python's `max` over a dict in insertion order picks it. */
  function FirstMax(s: seq<real>): (i: nat)
    requires s != []
    ensures i < |s|
    ensures forall j :: 0 <= j < |s| ==> s[j] <= s[i]
    ensures forall j :: 0 <= j < i ==> s[j] < s[i]
  {
    if |s| == 1 then 0
    else
      var k := FirstMax(s[..|s| - 1]);
      if s[|s| - 1] > s[k] then |s| - 1 else k
  }

  /** `s[k]` is the first maximum of `s`. */
  predicate Winner(s: seq<real>, k: int) {
    0 <= k < |s| && (forall j :: 0 <= j < |s| ==> s[j] <= s[k]) && (forall j :: 0 <= j < k ==> s[j] < s[k])
  }

  /** There is only one first maximum. */
  lemma WinnerUnique(s: seq<real>, i: int, k: int)
    requires Winner(s, i) && Winner(s, k)
    ensures i == k
  {
    assert s[i] == s[k];
  }

  /** The four competing scores, in the order the classifier lists them:
      trend up, trend down, range, event. */
  function Scores(th: Thresholds, f: RegimeFeatures): (s: seq<real>)
    ensures |s| == 4 && s[3] == ScoreEvent(th, f).0
    ensures forall j :: 0 <= j < 4 ==> 0.0 <= s[j] <= 1.0
  {
    var t := ScoreTrend(th, f);
    [t.0, t.1, ScoreRange(th, f).0, ScoreEvent(th, f).0]
  }

  /** The regime each position of `Scores` stands for when it wins; a winning event score maps to
      UNKNOWN because only a score of at least 0.7 makes an event day. */
  function RegimeAt(k: nat): (r: Regime)
    requires k < 4
    ensures r != Event
    ensures r == Unknown <==> k == 3
  {
    [TrendUp, TrendDown, Range, Unknown][k]
  }

  /** `classify`. An event score of at least 0.7 decides outright, with that confidence and only the
      event reasons. Otherwise the first maximum of the four scores wins, and a maximum under 0.3
      makes the day UNKNOWN; the confidence is always the winning score. */
  function Classify(th: Thresholds, f: RegimeFeatures): (c: Classification)
    ensures c.features == f
    ensures 0.0 <= c.confidence <= 1.0
    ensures c.regime == Event <==> ScoreEvent(th, f).0 >= 0.7
    ensures c.regime == Event ==> c.confidence == ScoreEvent(th, f).0 && c.reasons == ScoreEvent(th, f).1
    ensures c.regime != Event ==>
      && (exists k :: Winner(Scores(th, f), k) && c.confidence == Scores(th, f)[k]
                      && (c.confidence >= 0.3 ==> c.regime == RegimeAt(k)))
      && (c.confidence < 0.3 ==> c.regime == Unknown && c.reasons != [] && c.reasons[|c.reasons| - 1] == AllScoresLow)
      && ScoreEvent(th, f).1 <= c.reasons
  {
    var ev := ScoreEvent(th, f);
    if ev.0 >= 0.7 then Classification(Event, ev.0, ev.1, f)
    else
      var t := ScoreTrend(th, f);
      var rg := ScoreRange(th, f);
      var s := Scores(th, f);
      var k := FirstMax(s);
      var reasons := ev.1 + t.2 + rg.1;
      assert Winner(s, k);
      if s[k] < 0.3 then Classification(Unknown, s[k], reasons + [AllScoresLow], f)
      else Classification(RegimeAt(k), s[k], reasons, f)
  }

  /** The converse direction: below the event cut-off, the first maximum decides the regime. */
  lemma ClassifyPicksWinner(th: Thresholds, f: RegimeFeatures, k: nat)
    requires ScoreEvent(th, f).0 < 0.7
    requires Winner(Scores(th, f), k)
    ensures Classify(th, f).confidence == Scores(th, f)[k]
    ensures Classify(th, f).regime == (if Scores(th, f)[k] < 0.3 then Unknown else RegimeAt(k))
  {
    var c := Classify(th, f);
    var i :| Winner(Scores(th, f), i) && c.confidence == Scores(th, f)[i]
             && (c.confidence >= 0.3 ==> c.regime == RegimeAt(i));
    WinnerUnique(Scores(th, f), i, k);
  }

  /** The intraday adjustment of a finished classification: before half of the session the
      confidence is scaled by `progress + 0.3` and a caution becomes the last reason; the regime
      is never changed. */
  function Discount(base: Classification, progress: real): (c: Classification)
    ensures c.regime == base.regime && c.features == base.features
    ensures progress >= 0.5 ==> c == base
    ensures progress < 0.5 ==> c.reasons == base.reasons + [IntradayCaution(progress)]
    ensures 0.0 <= progress && 0.0 <= base.confidence ==> 0.3 * base.confidence <= c.confidence <= base.confidence
  {
    if progress < 0.5 then
      var m := progress + 0.3;
      var c := base.(confidence := Scaled(base.confidence, m), reasons := base.reasons + [IntradayCaution(progress)]);
      if 0.0 <= base.confidence && 0.3 <= m then Scale(base.confidence, m); c else c
    else base
  }

  /** `classify_realtime`: the full classification, discounted by the session's progress. */
  function ClassifyRealtime(th: Thresholds, f: RegimeFeatures, progress: real): (c: Classification)
    ensures c.regime == Classify(th, f).regime
    ensures progress >= 0.5 ==> c == Classify(th, f)
    ensures 0.0 <= progress ==> 0.3 * Classify(th, f).confidence <= c.confidence <= Classify(th, f).confidence
    ensures progress < 0.5 ==> c.reasons == Classify(th, f).reasons + [IntradayCaution(progress)]
  {
    Discount(Classify(th, f), progress)
  }

  function Scaled(b: real, m: real): real { b * m }

  lemma Scale(b: real, m: real)
    requires 0.0 <= b && 0.3 <= m < 0.8
    ensures 0.3 * b <= Scaled(b, m) <= b
  {
    MulNonNegative(b, m - 0.3);
    MulNonNegative(b, 1.0 - m);
    assert b * (m - 0.3) == b * m - 0.3 * b;
    assert b * (1.0 - m) == b - b * m;
  }

  lemma MulNonNegative(x: real, y: real)
    requires 0.0 <= x && 0.0 <= y
    ensures 0.0 <= x * y
  {
  }

  /** The day of the trend-up test: every trend sign points up. */
  lemma TrendUpScenario()
    ensures var f := Blank("AAPL", "2024-01-15").(vwapCrossCount := 1, pctTimeAboveVwap := 0.85,
              pctTimeBelowVwap := 0.15, orUpBreakoutCount := 1, orDownBreakoutCount := 0,
              rangeAtrRatio := Some(1.5), dayReturn := 0.02);
      Classify(Defaults, f).regime == TrendUp && Classify(Defaults, f).confidence == 1.0
  {
    var f := Blank("AAPL", "2024-01-15").(vwapCrossCount := 1, pctTimeAboveVwap := 0.85,
              pctTimeBelowVwap := 0.15, orUpBreakoutCount := 1, orDownBreakoutCount := 0,
              rangeAtrRatio := Some(1.5), dayReturn := 0.02);
    assert Scores(Defaults, f) == [1.0, 0.0, 0.0, 0.0];
    ClassifyPicksWinner(Defaults, f, 0);
  }

  /** The day of the range test: frequent crosses, false breakouts, a narrow range, balance. */
  lemma RangeScenario()
    ensures var f := Blank("AAPL", "2024-01-15").(vwapCrossCount := 6, pctTimeAboveVwap := 0.52,
              pctTimeBelowVwap := 0.48, orFalseBreakoutCount := 3, rangeAtrRatio := Some(0.6), dayReturn := 0.001);
      Classify(Defaults, f).regime == Range && Classify(Defaults, f).confidence == 1.0
  {
    var f := Blank("AAPL", "2024-01-15").(vwapCrossCount := 6, pctTimeAboveVwap := 0.52,
              pctTimeBelowVwap := 0.48, orFalseBreakoutCount := 3, rangeAtrRatio := Some(0.6), dayReturn := 0.001);
    assert Scores(Defaults, f) == [0.0, 0.0, 1.0, 0.0];
    ClassifyPicksWinner(Defaults, f, 2);
  }

  /** The day of the event test: a 2.5% gap, 60% early volume and 2.5 times the usual volume. */
  lemma EventScenario()
    ensures var f := Blank("AAPL", "2024-01-15").(gapPct := 0.025, earlyVolumeRatio := 0.6, volumeRatio := Some(2.5));
      Classify(Defaults, f).regime == Event && Classify(Defaults, f).confidence == 1.0
  {
  }

  /** The day of the intraday test: at 30% of the session the trend-up confidence 0.6 becomes 0.36,
      below the full-session value, with the caution as the last reason. */
  lemma RealtimeScenario()
    ensures var f := Blank("AAPL", "2024-01-15").(pctTimeAboveVwap := 0.8, vwapCrossCount := 1);
      var early := ClassifyRealtime(Defaults, f, 0.3);
      var full := ClassifyRealtime(Defaults, f, 1.0);
      early.regime == TrendUp && early.confidence == 0.36 && full.confidence == 0.6
      && early.reasons[|early.reasons| - 1] == IntradayCaution(0.3)
  {
    var f := Blank("AAPL", "2024-01-15").(pctTimeAboveVwap := 0.8, vwapCrossCount := 1);
    assert Scores(Defaults, f) == [0.6, 0.0, 0.0, 0.0];
    ClassifyPicksWinner(Defaults, f, 0);
  }
}
