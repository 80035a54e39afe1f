/** Day-type features extracted from one day's minute bars and the daily history
    (src/tbot/regime/features.py). */
module Features {
  import opened Wrappers
  import opened Num
  import opened Clock
  import opened Candles
  import VwapIndicator
  import OpeningRangeIndicator
  import MovingAverage

  /** The classification features of one symbol on one day (`RegimeFeatures`). */
  datatype RegimeFeatures = RegimeFeatures(
    symbol: string,
    date: string,
    vwapCrossCount: int,
    pctTimeAboveVwap: real,
    pctTimeBelowVwap: real,
    or5Width: Option<real>,
    or15Width: Option<real>,
    orUpBreakoutCount: int,
    orDownBreakoutCount: int,
    orFalseBreakoutCount: int,
    intradayRange: real,
    intradayRangePct: real,
    atr20: Option<real>,
    rangeAtrRatio: Option<real>,
    totalVolume: real,
    earlyVolume: real,
    earlyVolumeRatio: real,
    avgDailyVolume: Option<real>,
    volumeRatio: Option<real>,
    gapPct: real,
    openPrice: real,
    closePrice: real,
    dayReturn: real)

  /** A record with only the symbol and the date set. */
  function Blank(symbol: string, date: string): RegimeFeatures {
    RegimeFeatures(symbol, date, 0, 0.0, 0.0, None, None, 0, 0, 0, 0.0, 0.0, None, None,
                   0.0, 0.0, 0.0, None, None, 0.0, 0.0, 0.0, 0.0)
  }

  const OrEnd: TimeOfDay := 35100      // 09:45, end of the fifteen-minute opening range
  const EarlyEnd: TimeOfDay := 36000   // 10:00, end of the early-volume window
  const AtrPeriod := 20
  const VolumeLookback := 20

  function HighestHigh(cs: seq<Candle>): (r: real)
    requires cs != []
    ensures (forall i :: 0 <= i < |cs| ==> cs[i].high <= r) && exists i :: 0 <= i < |cs| && cs[i].high == r
  {
    if |cs| == 1 then cs[0].high
    else
      var m := HighestHigh(cs[..|cs| - 1]);
      assert forall i :: 0 <= i < |cs| - 1 ==> cs[..|cs| - 1][i] == cs[i];
      if cs[|cs| - 1].high > m then cs[|cs| - 1].high else m
  }

  function LowestLow(cs: seq<Candle>): (r: real)
    requires cs != []
    ensures (forall i :: 0 <= i < |cs| ==> r <= cs[i].low) && exists i :: 0 <= i < |cs| && cs[i].low == r
  {
    if |cs| == 1 then cs[0].low
    else
      var m := LowestLow(cs[..|cs| - 1]);
      assert forall i :: 0 <= i < |cs| - 1 ==> cs[..|cs| - 1][i] == cs[i];
      if cs[|cs| - 1].low < m then cs[|cs| - 1].low else m
  }

  function Volumes(cs: seq<Candle>): (r: seq<real>)
    ensures |r| == |cs| && forall i :: 0 <= i < |cs| ==> r[i] == cs[i].volume
  {
    if cs == [] then [] else Volumes(cs[..|cs| - 1]) + [cs[|cs| - 1].volume]
  }

  /** The bars whose time of day is at or after `from`, in order. */
  function AtOrAfter(cs: seq<Candle>, from: TimeOfDay): (r: seq<Candle>)
    ensures |r| <= |cs|
    ensures forall i :: 0 <= i < |r| ==> r[i] in cs && TimeOf(r[i].time) >= from
    ensures forall i :: 0 <= i < |cs| && TimeOf(cs[i].time) >= from ==> cs[i] in r
  {
    if cs == [] then []
    else
      var rest := AtOrAfter(cs[..|cs| - 1], from);
      var c := cs[|cs| - 1];
      assert forall i :: 0 <= i < |cs| - 1 ==> cs[..|cs| - 1][i] == cs[i];
      if TimeOf(c.time) >= from then rest + [c] else rest
  }

  /** Total volume of the bars strictly before `until`. */
  function VolumeBefore(cs: seq<Candle>, until: TimeOfDay): (r: real)
    ensures (forall i :: 0 <= i < |cs| ==> cs[i].volume >= 0.0) ==> 0.0 <= r <= MovingAverage.Sum(Volumes(cs))
  {
    if cs == [] then 0.0
    else
      var init := cs[..|cs| - 1];
      assert Volumes(cs)[..|cs| - 1] == Volumes(init);
      VolumeBefore(init, until) + (if TimeOf(cs[|cs| - 1].time) < until then cs[|cs| - 1].volume else 0.0)
  }

  /** Breakout counts over the bars from 09:45 on, against the opening-range bounds;
      none when no bar is that late. */
  function Breakouts(cs: seq<Candle>, orHigh: real, orLow: real): (r: (int, int))
    ensures r.0 >= 0 && r.1 >= 0
    ensures r.0 + r.1 <= |AtOrAfter(cs, OrEnd)| <= |cs|
  {
    var zs := OpeningRangeIndicator.Zones(Closes(AtOrAfter(cs, OrEnd)), orHigh, orLow);
    OpeningRangeIndicator.EntriesBounds(zs);
    (OpeningRangeIndicator.Entries(zs, OpeningRangeIndicator.Above),
     OpeningRangeIndicator.Entries(zs, OpeningRangeIndicator.Below))
  }

  /** `num / den` where the source divides only for a positive denominator, and 0 otherwise. */
  function Fraction(num: real, den: real): (r: real)
    ensures den > 0.0 ==> r * den == num
    ensures den <= 0.0 ==> r == 0.0
  {
    if den > 0.0 then num / den else 0.0
  }

  /** A fraction of a non-negative part of a positive whole lies in `[0, 1]`. */
  lemma FractionBounds(part: real, whole: real)
    requires whole > 0.0 && 0.0 <= part <= whole
    ensures 0.0 <= Fraction(part, whole) <= 1.0
  {
    var r := Fraction(part, whole);
    if r > 1.0 {
      Exceeds(r, whole);
    }
  }

  lemma Exceeds(r: real, whole: real)
    requires r > 1.0 && whole > 0.0
    ensures r * whole > whole
  {
    assert (r - 1.0) * whole > 0.0;
  }

  /** Price features: open, close, range and the ratios built on them. */
  datatype PriceFacts = PriceFacts(openPrice: real, closePrice: real, range: real, rangePct: real,
                                   dayReturn: real, gapPct: real)

  function PriceFeatures(intraday: seq<Candle>, prevClose: Option<real>): (p: PriceFacts)
    requires intraday != []
    ensures p.openPrice == intraday[0].open && p.closePrice == intraday[|intraday| - 1].close
    ensures p.range == HighestHigh(intraday) - LowestLow(intraday)
    ensures p.rangePct == Fraction(p.range, p.openPrice)
    ensures p.dayReturn == Fraction(p.closePrice - p.openPrice, p.openPrice)
    ensures prevClose.Some? ==> p.gapPct == Fraction(p.openPrice - prevClose.value, prevClose.value)
    ensures prevClose.None? ==> p.gapPct == 0.0
  {
    var o := intraday[0].open;
    var c := intraday[|intraday| - 1].close;
    var range := HighestHigh(intraday) - LowestLow(intraday);
    var gap := match prevClose
      case Some(pc) => Fraction(o - pc, pc)
      case None => 0.0;
    PriceFacts(o, c, range, Fraction(range, o), Fraction(c - o, o), gap)
  }

  /** Opening-range widths and breakout counts after the fifteen-minute range. */
  datatype RangeFacts = RangeFacts(or5Width: Option<real>, or15Width: Option<real>, up: int, down: int)

  function RangeFeatures(intraday: seq<Candle>): (r: RangeFacts)
    ensures r.up >= 0 && r.down >= 0
    ensures r.up + r.down <= |intraday|
    ensures r.up + r.down > 0 ==> r.or15Width.Some?
    ensures var or15 := OpeningRangeIndicator.CalculateOpeningRange(intraday, 15, 9, 30);
      (r.or15Width.Some? <==> or15.RangeOf?)
      && (or15.RangeOf? ==> r.or15Width.value == or15.high - or15.low
                            && (r.up, r.down) == Breakouts(intraday, or15.high, or15.low))
    ensures var or5 := OpeningRangeIndicator.CalculateOpeningRange(intraday, 5, 9, 30);
      (r.or5Width.Some? <==> or5.RangeOf?) && (or5.RangeOf? ==> r.or5Width.value == or5.high - or5.low)
  {
    var or5 := OpeningRangeIndicator.CalculateOpeningRange(intraday, 5, 9, 30);
    var or15 := OpeningRangeIndicator.CalculateOpeningRange(intraday, 15, 9, 30);
    var w5 := if or5.RangeOf? then Some(or5.high - or5.low) else None;
    if or15.RangeOf? then
      var b := Breakouts(intraday, or15.high, or15.low);
      RangeFacts(w5, Some(or15.high - or15.low), b.0, b.1)
    else RangeFacts(w5, None, 0, 0)
  }

  /** ATR and average daily volume from the daily history, with the ratios they allow. */
  datatype DailyFacts = DailyFacts(atr: Option<real>, rangeAtr: Option<real>, avgVolume: Option<real>,
                                   volumeRatio: Option<real>)

  /** `num / den` when the denominator is present and positive, absent otherwise. */
  function RatioTo(num: real, den: Option<real>): (r: Option<real>)
    ensures r.Some? <==> den.Some? && den.value > 0.0
    ensures r.Some? ==> r.value * den.value == num
  {
    if den.Some? && den.value > 0.0 then Some(num / den.value) else None
  }

  function DailyFeatures(daily: Option<seq<Candle>>, range: real, total: real): (d: DailyFacts)
    ensures d.atr.Some? <==> daily.Some? && |daily.value| >= AtrPeriod + 1
    ensures d.atr.Some? ==> d.atr == MovingAverage.GetAtr(daily.value, AtrPeriod)
    ensures d.rangeAtr.Some? <==> d.atr.Some? && d.atr.value > 0.0
    ensures d.rangeAtr.Some? ==> d.rangeAtr.value * d.atr.value == range
    ensures d.avgVolume.Some? <==> daily.Some? && |daily.value| >= VolumeLookback
    ensures d.avgVolume.Some? ==>
      d.avgVolume.value * VolumeLookback as real == MovingAverage.Sum(Volumes(daily.value)[|daily.value| - VolumeLookback..])
    ensures d.volumeRatio.Some? <==> d.avgVolume.Some? && d.avgVolume.value > 0.0
    ensures d.volumeRatio.Some? ==> d.volumeRatio.value * d.avgVolume.value == total
  {
    var atr := if daily.Some? && daily.value != [] then MovingAverage.GetAtr(daily.value, AtrPeriod) else None;
    var avg := if daily.Some? && |daily.value| >= VolumeLookback
               then Some(MovingAverage.Sum(Volumes(daily.value)[|daily.value| - VolumeLookback..]) / VolumeLookback as real)
               else None;
    DailyFacts(atr, RatioTo(range, atr), avg, RatioTo(total, avg))
  }

  /** `extract_features`: empty input leaves the blank record; otherwise each group of features
      is filled from the bars, and each ratio only where its denominator is present and positive. */
  function ExtractFeatures(intraday: seq<Candle>, daily: Option<seq<Candle>>, symbol: string, date: string,
                           prevClose: Option<real>): (f: RegimeFeatures)
    ensures intraday == [] ==> f == Blank(symbol, date)
    ensures f.symbol == symbol && f.date == date
    ensures intraday != [] ==>
      var p := PriceFeatures(intraday, prevClose);
      var closes := Closes(intraday);
      var vwap := VwapIndicator.CalculateVwap(intraday);
      var o := RangeFeatures(intraday);
      && (f.openPrice, f.closePrice, f.intradayRange, f.intradayRangePct, f.dayReturn, f.gapPct)
         == (p.openPrice, p.closePrice, p.range, p.rangePct, p.dayReturn, p.gapPct)
      && f.vwapCrossCount == VwapIndicator.CountVwapCrosses(closes, vwap)
      && f.pctTimeAboveVwap == VwapIndicator.PctTimeAboveVwap(closes, vwap)
      && f.pctTimeBelowVwap == 1.0 - f.pctTimeAboveVwap
      && 0.0 <= f.pctTimeBelowVwap <= 1.0
      && (f.or5Width, f.or15Width, f.orUpBreakoutCount, f.orDownBreakoutCount) == (o.or5Width, o.or15Width, o.up, o.down)
      && f.orFalseBreakoutCount == MinInt(f.orUpBreakoutCount, f.orDownBreakoutCount)
      && f.totalVolume == MovingAverage.Sum(Volumes(intraday))
      && f.earlyVolume == VolumeBefore(intraday, EarlyEnd)
      && f.earlyVolumeRatio == Fraction(f.earlyVolume, f.totalVolume)
      && var d := DailyFeatures(daily, p.range, f.totalVolume);
         (f.atr20, f.rangeAtrRatio, f.avgDailyVolume, f.volumeRatio) == (d.atr, d.rangeAtr, d.avgVolume, d.volumeRatio)
  {
    if intraday == [] then Blank(symbol, date)
    else
      var p := PriceFeatures(intraday, prevClose);
      var closes := Closes(intraday);
      var vwap := VwapIndicator.CalculateVwap(intraday);
      var above := VwapIndicator.PctTimeAboveVwap(closes, vwap);
      var o := RangeFeatures(intraday);
      var total := MovingAverage.Sum(Volumes(intraday));
      var early := VolumeBefore(intraday, EarlyEnd);
      var d := DailyFeatures(daily, p.range, total);
      RegimeFeatures(symbol, date, VwapIndicator.CountVwapCrosses(closes, vwap), above, 1.0 - above,
                     o.or5Width, o.or15Width, o.up, o.down, MinInt(o.up, o.down),
                     p.range, p.rangePct, d.atr, d.rangeAtr, total, early, Fraction(early, total),
                     d.avgVolume, d.volumeRatio, p.gapPct, p.openPrice, p.closePrice, p.dayReturn)
  }

  /** A day's bars with non-negative volume have an early-volume share in `[0, 1]`. */
  lemma EarlyShareIsFraction(intraday: seq<Candle>)
    requires forall i :: 0 <= i < |intraday| ==> intraday[i].volume >= 0.0
    ensures var total := MovingAverage.Sum(Volumes(intraday));
      0.0 <= Fraction(VolumeBefore(intraday, EarlyEnd), total) <= 1.0
  {
    var total := MovingAverage.Sum(Volumes(intraday));
    if total > 0.0 {
      FractionBounds(VolumeBefore(intraday, EarlyEnd), total);
    }
  }

  /** A false breakout needs a breakout both ways, so it never exceeds either count. */
  lemma FalseBreakoutsBounded(intraday: seq<Candle>, daily: Option<seq<Candle>>, symbol: string, date: string,
                              prevClose: Option<real>)
    ensures var f := ExtractFeatures(intraday, daily, symbol, date, prevClose);
      f.orFalseBreakoutCount <= f.orUpBreakoutCount && f.orFalseBreakoutCount <= f.orDownBreakoutCount
      && f.orUpBreakoutCount + f.orDownBreakoutCount <= |intraday|
      && (f.orFalseBreakoutCount > 0 ==> f.or15Width.Some?)
  {
  }
}
