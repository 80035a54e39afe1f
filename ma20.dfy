/** Daily moving average and average true range (src/tbot/indicators/ma20.py).
    A pandas column becomes a sequence; a NaN entry becomes `None`. */
module MovingAverage {
  import opened Wrappers
  import opened Num
  import opened Candles

  function Sum(s: seq<real>): real {
    if s == [] then 0.0 else Sum(s[..|s| - 1]) + s[|s| - 1]
  }

  /** Every value of `s` lies in `[lo, hi]`. */
  predicate Within(s: seq<real>, lo: real, hi: real) {
    forall i :: 0 <= i < |s| ==> lo <= s[i] <= hi
  }

  lemma {:induction false} SumWithin(s: seq<real>, lo: real, hi: real)
    requires Within(s, lo, hi)
    ensures |s| as real * lo <= Sum(s) <= |s| as real * hi
  {
    if s != [] {
      var init := s[..|s| - 1];
      var n := |init| as real;
      SumWithin(init, lo, hi);
      assert Sum(s) == Sum(init) + s[|s| - 1];
      assert |s| as real * lo == n * lo + lo && |s| as real * hi == n * hi + hi;
    }
  }

  /** `calculate_ma20`: the rolling mean over `period` rows, missing until a full window exists. */
  function RollingMean(prices: seq<real>, period: int): (r: seq<Option<real>>)
    requires period >= 1
    ensures |r| == |prices|
    ensures forall i :: 0 <= i < |prices| ==> (r[i].Some? <==> i >= period - 1)
    ensures forall i :: period - 1 <= i < |prices| ==>
      r[i].Some? && r[i].value * period as real == Sum(prices[i - period + 1..i + 1])
  {
    seq(|prices|, i requires 0 <= i < |prices| =>
      if i >= period - 1 then Some(Sum(prices[i - period + 1..i + 1]) / period as real) else None)
  }

  /** `get_ma20_from_daily`: the latest rolling mean, absent with fewer than `period` rows. */
  function GetMa(closes: seq<real>, period: int): (r: Option<real>)
    requires period >= 1
    ensures r.None? <==> |closes| < period
    ensures r.Some? ==> r.value * period as real == Sum(closes[|closes| - period..])
  {
    if closes == [] || |closes| < period then None
    else
      assert closes[|closes| - period..|closes|] == closes[|closes| - period..];
      RollingMean(closes, period)[|closes| - 1]
  }

  /** The moving average lies between the lowest and highest close of its window. */
  lemma MaWithinRange(closes: seq<real>, period: int, lo: real, hi: real)
    requires period >= 1 && |closes| >= period
    requires Within(closes[|closes| - period..], lo, hi)
    ensures GetMa(closes, period).Some? && lo <= GetMa(closes, period).value <= hi
  {
    var w := closes[|closes| - period..];
    var n := period as real;
    SumWithin(w, lo, hi);
    assert |w| as real == n;
    var g := GetMa(closes, period);
    assert g.Some? && g.value * n == Sum(w);
    ScaledBetween(g.value, n, lo, hi);
  }

  /** From `n*lo <= m*n <= n*hi` with `n > 0`, `lo <= m <= hi`. */
  lemma ScaledBetween(m: real, n: real, lo: real, hi: real)
    requires n > 0.0 && n * lo <= m * n <= n * hi
    ensures lo <= m <= hi
  {
  }

  /** True range of a bar given the previous close; the first bar has no previous close and
      pandas' row maximum skips the missing terms, leaving `high - low`. */
  function TrueRange(c: Candle, prevClose: Option<real>): (r: real)
    ensures r >= c.high - c.low
    ensures prevClose.Some? ==> r >= Abs(c.high - prevClose.value) && r >= Abs(c.low - prevClose.value)
    ensures prevClose.Some? ==> r == c.high - c.low || r == Abs(c.high - prevClose.value) || r == Abs(c.low - prevClose.value)
    ensures prevClose.None? ==> r == c.high - c.low
  {
    match prevClose
    case None => c.high - c.low
    case Some(pc) => Max(Max(c.high - c.low, Abs(c.high - pc)), Abs(c.low - pc))
  }

  function TrueRanges(cs: seq<Candle>): (r: seq<real>)
    ensures |r| == |cs|
    ensures |cs| > 0 ==> r[0] == TrueRange(cs[0], None)
    ensures forall i :: 1 <= i < |cs| ==> r[i] == TrueRange(cs[i], Some(cs[i - 1].close))
  {
    if cs == [] then []
    else
      var n := |cs| - 1;
      TrueRanges(cs[..n]) + [TrueRange(cs[n], if n == 0 then None else Some(cs[n - 1].close))]
  }

  /** One smoothing step: weight `alpha` on the new value, `1 - alpha` on the previous mean. */
  function Blend(alpha: real, x: real, y: real): real {
    alpha * x + (1.0 - alpha) * y
  }

  /** Exponentially weighted mean without bias adjustment: `y0 = x0`, `yt = Blend(a, xt, y(t-1))`. */
  function Ewm(xs: seq<real>, alpha: real): (r: seq<real>)
    ensures |r| == |xs|
    ensures |xs| > 0 ==> r[0] == xs[0]
    ensures forall t :: 1 <= t < |xs| ==> r[t] == Blend(alpha, xs[t], r[t - 1])
  {
    if xs == [] then []
    else if |xs| == 1 then [xs[0]]
    else
      var n := |xs| - 1;
      var init := Ewm(xs[..n], alpha);
      assert forall t :: 1 <= t < n ==> xs[..n][t] == xs[t];
      init + [Blend(alpha, xs[n], init[n - 1])]
  }

  /** A weighted mean of values in `[lo, hi]` stays in `[lo, hi]`. */
  lemma {:induction false} EwmWithin(xs: seq<real>, alpha: real, lo: real, hi: real)
    requires 0.0 <= alpha <= 1.0 && Within(xs, lo, hi)
    ensures Within(Ewm(xs, alpha), lo, hi)
  {
    if |xs| > 1 {
      var n := |xs| - 1;
      EwmWithin(xs[..n], alpha, lo, hi);
      var r := Ewm(xs, alpha);
      assert r[..n] == Ewm(xs[..n], alpha);
      ConvexStep(alpha, xs[n], r[n - 1], lo, hi);
    }
  }

  lemma ConvexStep(alpha: real, x: real, y: real, lo: real, hi: real)
    requires 0.0 <= alpha <= 1.0 && lo <= x <= hi && lo <= y <= hi
    ensures lo <= Blend(alpha, x, y) <= hi
  {
    BlendShift(alpha, x, y);
    ShiftBounds(alpha, x - y);
    Between(y, x - y, alpha * (x - y), lo, hi);
  }

  /** The step moves the previous mean a fraction `alpha` of the way towards the new value. */
  lemma BlendShift(alpha: real, x: real, y: real)
    ensures Blend(alpha, x, y) == y + alpha * (x - y)
  {
    assert alpha * (x - y) == alpha * x - alpha * y;
    assert (1.0 - alpha) * y == y - alpha * y;
  }

  lemma ShiftBounds(alpha: real, d: real)
    requires 0.0 <= alpha <= 1.0
    ensures d >= 0.0 ==> 0.0 <= alpha * d <= d
    ensures d <= 0.0 ==> d <= alpha * d <= 0.0
  {
    assert (1.0 - alpha) * d == d - alpha * d;
  }

  lemma Between(y: real, d: real, p: real, lo: real, hi: real)
    requires lo <= y <= hi && lo <= y + d <= hi
    requires d >= 0.0 ==> 0.0 <= p <= d
    requires d <= 0.0 ==> d <= p <= 0.0
    ensures lo <= y + p <= hi
  {
  }

  /** Smoothing factor of a span-`period` mean. */
  function Alpha(period: int): (a: real)
    requires period >= 1
    ensures 0.0 < a <= 1.0
  {
    2.0 / (period as real + 1.0)
  }

  /** `calculate_atr`: the span-`period` weighted mean of the true ranges. */
  function CalculateAtr(cs: seq<Candle>, period: int): (r: seq<real>)
    requires period >= 1
    ensures |r| == |cs|
    ensures |cs| > 0 ==> r[0] == cs[0].high - cs[0].low
    ensures forall t :: 1 <= t < |cs| ==> r[t] == Blend(Alpha(period), TrueRanges(cs)[t], r[t - 1])
  {
    Ewm(TrueRanges(cs), Alpha(period))
  }

  /** `get_atr_from_daily`: the latest ATR, absent with fewer than `period + 1` rows. */
  function GetAtr(cs: seq<Candle>, period: int): (r: Option<real>)
    requires period >= 1
    ensures r.None? <==> |cs| < period + 1
    ensures r.Some? ==> r.value == CalculateAtr(cs, period)[|cs| - 1]
  {
    if cs == [] || |cs| < period + 1 then None else Some(CalculateAtr(cs, period)[|cs| - 1])
  }

  /** Bars whose high is not below their low give a non-negative ATR. */
  lemma AtrNonNegative(cs: seq<Candle>, period: int)
    requires period >= 1
    requires forall i :: 0 <= i < |cs| ==> cs[i].low <= cs[i].high
    ensures GetAtr(cs, period).Some? ==> GetAtr(cs, period).value >= 0.0
  {
    var trs := TrueRanges(cs);
    if trs != [] {
      var top := SeqMaxOf(trs);
      forall i | 0 <= i < |trs|
        ensures 0.0 <= trs[i] <= top
      {
        if i == 0 {
          assert trs[0] == TrueRange(cs[0], None);
        } else {
          assert trs[i] == TrueRange(cs[i], Some(cs[i - 1].close));
        }
      }
      EwmWithin(trs, Alpha(period), 0.0, top);
      assert CalculateAtr(cs, period) == Ewm(trs, Alpha(period));
    }
  }

  function SeqMaxOf(s: seq<real>): (r: real)
    requires s != []
    ensures forall i :: 0 <= i < |s| ==> s[i] <= r
  {
    if |s| == 1 then s[0] else Max(SeqMaxOf(s[..|s| - 1]), s[|s| - 1])
  }
}
