/** Session VWAP (src/tbot/indicators/vwap.py): a running tracker that restarts every
    trading day, and batch helpers over a day's bars. */
module VwapIndicator {
  import opened Wrappers
  import opened Clock
  import opened Candles

  /** Price times volume of one `(price, volume)` observation. */
  function Pv(o: (real, real)): real {
    o.0 * o.1
  }

  /** Accumulated price times volume of `(price, volume)` observations. */
  function SumPv(s: seq<(real, real)>): real {
    if s == [] then 0.0 else SumPv(s[..|s| - 1]) + Pv(s[|s| - 1])
  }

  /** Accumulated volume of `(price, volume)` observations. */
  function SumVol(s: seq<(real, real)>): real {
    if s == [] then 0.0 else SumVol(s[..|s| - 1]) + s[|s| - 1].1
  }

  predicate AllPositiveVolume(s: seq<(real, real)>) {
    forall k :: 0 <= k < |s| ==> s[k].1 > 0.0
  }

  lemma {:induction false} SumVolPositive(s: seq<(real, real)>)
    requires AllPositiveVolume(s) && s != []
    ensures SumVol(s) > 0.0
  {
    if |s| > 1 {
      SumVolPositive(s[..|s| - 1]);
    }
  }

  /** VWAP of a prefix: accumulated price-volume over accumulated volume, absent (NaN) at zero volume. */
  function Ratio(s: seq<(real, real)>): (r: Option<real>)
    ensures r.None? <==> SumVol(s) == 0.0
    ensures r.Some? ==> r.value * SumVol(s) == SumPv(s)
  {
    if SumVol(s) == 0.0 then None else Some(SumPv(s) / SumVol(s))
  }

  /** The VWAP after every prefix of the observations (pandas cumulative sums divided pointwise). */
  function PrefixVwaps(s: seq<(real, real)>): (r: seq<Option<real>>)
    ensures |r| == |s|
    ensures forall i :: 0 <= i < |s| ==> r[i] == Ratio(s[..i + 1])
  {
    if s == [] then []
    else
      var init := s[..|s| - 1];
      assert forall j :: 0 <= j <= |init| ==> init[..j] == s[..j];
      assert s[..|s|] == s;
      PrefixVwaps(init) + [Ratio(s)]
  }

  /** Appending one observation extends both sums and leaves every earlier prefix as it was. */
  lemma AppendObservation(s: seq<(real, real)>, x: (real, real))
    ensures (s + [x])[..|s|] == s
    ensures SumPv(s + [x]) == SumPv(s) + Pv(x) && SumVol(s + [x]) == SumVol(s) + x.1
    ensures forall j :: 0 <= j <= |s| ==> (s + [x])[..j] == s[..j]
  {
    var t := s + [x];
    assert t[..|s|] == s;
    assert t[|s|] == x;
    assert SumPv(t) == SumPv(s) + Pv(x);
    assert SumVol(t) == SumVol(s) + x.1;
  }

  /** One more positive-volume observation `(p, v)` on top of running sums `pv` and `vol`. */
  lemma AppendPositive(s: seq<(real, real)>, p: real, v: real, pv: real, vol: real)
    requires AllPositiveVolume(s) && v > 0.0
    requires pv == SumPv(s) && vol == SumVol(s)
    ensures AllPositiveVolume(s + [(p, v)])
    ensures SumPv(s + [(p, v)]) == pv + p * v && SumVol(s + [(p, v)]) == vol + v
    ensures vol + v > 0.0 && Ratio(s + [(p, v)]) == Some((pv + p * v) / (vol + v))
  {
    var t := s + [(p, v)];
    AppendObservation(s, (p, v));
    assert AllPositiveVolume(t);
    SumVolPositive(t);
    assert SumPv(t) == pv + p * v;
  }

  /** Every history point is the VWAP and the volume of the observations up to it. */
  ghost predicate Tracks(s: seq<(real, real)>, h: seq<HistoryEntry>) {
    && |h| == |s|
    && forall i :: 0 <= i < |h| ==>
         Ratio(s[..i + 1]) == Some(h[i].vwap) && h[i].cumulativeVolume == SumVol(s[..i + 1])
  }

  lemma TracksAppend(s: seq<(real, real)>, h: seq<HistoryEntry>, x: (real, real), e: HistoryEntry)
    requires Tracks(s, h)
    requires Ratio(s + [x]) == Some(e.vwap) && e.cumulativeVolume == SumVol(s + [x])
    ensures Tracks(s + [x], h + [e])
  {
    AppendObservation(s, x);
    assert (s + [x])[..|s| + 1] == s + [x];
  }

  /** Each bar contributes its typical price and its volume. */
  function Observations(cs: seq<Candle>): (r: seq<(real, real)>)
    ensures |r| == |cs| && forall i :: 0 <= i < |cs| ==> r[i] == (cs[i].Typical(), cs[i].volume)
  {
    if cs == [] then [] else [(cs[0].Typical(), cs[0].volume)] + Observations(cs[1..])
  }

  /** `calculate_vwap`: at each row, the VWAP of all rows up to it; absent where no volume has traded. */
  function CalculateVwap(cs: seq<Candle>): (r: seq<Option<real>>)
    ensures |r| == |cs|
  {
    PrefixVwaps(Observations(cs))
  }

  /** Row `i` of `calculate_vwap` is the VWAP of the rows up to and including `i`. */
  lemma CalculateVwapRows(cs: seq<Candle>)
    ensures forall i :: 0 <= i < |cs| ==> CalculateVwap(cs)[i] == Ratio(Observations(cs)[..i + 1])
  {
  }

  /** Whether each price lies strictly above its VWAP; a missing VWAP compares as not above. */
  function AboveFlags(prices: seq<real>, vwap: seq<Option<real>>): (r: seq<bool>)
    requires |prices| == |vwap|
    ensures |r| == |prices|
    ensures forall i :: 0 <= i < |prices| ==> (r[i] <==> vwap[i].Some? && prices[i] > vwap[i].value)
  {
    if prices == [] then [] else [vwap[0].Some? && prices[0] > vwap[0].value] + AboveFlags(prices[1..], vwap[1..])
  }

  /** Number of adjacent pairs whose flags differ; a series that stays on one side never flips. */
  function Flips(a: seq<bool>): (r: nat)
    ensures (forall i :: 0 <= i < |a| ==> a[i] == a[0]) ==> r == 0
  {
    if |a| < 2 then 0 else Flips(a[..|a| - 1]) + (if a[|a| - 1] != a[|a| - 2] then 1 else 0)
  }

  lemma {:induction false} FlipsBound(a: seq<bool>)
    ensures |a| >= 1 ==> Flips(a) <= |a| - 1
    ensures |a| < 2 ==> Flips(a) == 0
  {
    if |a| >= 2 {
      FlipsBound(a[..|a| - 1]);
    }
  }

  /** An even number of crossings brings the price back to the side it started on. */
  lemma {:induction false} FlipsParity(a: seq<bool>)
    ensures |a| >= 1 ==> (Flips(a) % 2 == 0 <==> a[0] == a[|a| - 1])
  {
    if |a| >= 2 {
      FlipsParity(a[..|a| - 1]);
    }
  }

  /** `count_vwap_crosses`: how often the price changes side of the VWAP. */
  function CountVwapCrosses(prices: seq<real>, vwap: seq<Option<real>>): (r: nat)
    requires |prices| == |vwap|
    ensures |prices| < 2 ==> r == 0
    ensures |prices| >= 1 ==> r <= |prices| - 1
    ensures |prices| >= 1 ==> (r % 2 == 0 <==> AboveFlags(prices, vwap)[0] == AboveFlags(prices, vwap)[|prices| - 1])
  {
    var flags := AboveFlags(prices, vwap);
    FlipsBound(flags);
    FlipsParity(flags);
    if |prices| < 2 then 0 else Flips(flags)
  }

  /** Rows whose VWAP is known, and among them rows priced strictly above it. */
  function CountValid(vwap: seq<Option<real>>): nat {
    if vwap == [] then 0 else CountValid(vwap[..|vwap| - 1]) + (if vwap[|vwap| - 1].Some? then 1 else 0)
  }

  /** Valid rows are at most all rows, and all of them when no VWAP is missing. */
  lemma {:induction false} CountValidBounds(vwap: seq<Option<real>>)
    ensures CountValid(vwap) <= |vwap|
    ensures (forall i :: 0 <= i < |vwap| ==> vwap[i].Some?) ==> CountValid(vwap) == |vwap|
  {
    if vwap != [] {
      var n := |vwap| - 1;
      CountValidBounds(vwap[..n]);
      if forall i :: 0 <= i < |vwap| ==> vwap[i].Some? {
        assert forall i :: 0 <= i < n ==> vwap[..n][i].Some?;
      }
    }
  }

  function CountAbove(prices: seq<real>, vwap: seq<Option<real>>): (r: nat)
    requires |prices| == |vwap|
    ensures r <= CountValid(vwap)
  {
    if vwap == [] then 0
    else
      var n := |vwap| - 1;
      CountAbove(prices[..n], vwap[..n]) + (if vwap[n].Some? && prices[n] > vwap[n].value then 1 else 0)
  }

  /** `pct_time_above_vwap`: the share of valid rows priced above the VWAP. */
  function PctTimeAboveVwap(prices: seq<real>, vwap: seq<Option<real>>): (r: real)
    requires |prices| == |vwap|
    ensures 0.0 <= r <= 1.0
    ensures CountValid(vwap) == 0 ==> r == 0.0
    ensures CountValid(vwap) > 0 ==> r * CountValid(vwap) as real == CountAbove(prices, vwap) as real
  {
    var valid := CountValid(vwap);
    if |prices| == 0 || valid == 0 then 0.0
    else
      var above := CountAbove(prices, vwap) as real;
      assert above <= valid as real;
      assert above / valid as real * valid as real == above;
      above / valid as real
  }

  /** Crossing counts checked for the alternating and the one-sided series against a flat VWAP of 100. */
  lemma CrossesScenario()
    ensures CountVwapCrosses([99.0, 101.0, 99.0, 101.0, 99.0], [Some(100.0), Some(100.0), Some(100.0), Some(100.0), Some(100.0)]) == 4
    ensures CountVwapCrosses([101.0, 102.0, 103.0], [Some(100.0), Some(100.0), Some(100.0)]) == 0
  {
    var a := AboveFlags([99.0, 101.0, 99.0, 101.0, 99.0], [Some(100.0), Some(100.0), Some(100.0), Some(100.0), Some(100.0)]);
    assert a == [false, true, false, true, false];
    assert Flips([false]) == 0;
    assert [false, true][..1] == [false];
    assert Flips([false, true]) == 1;
    assert [false, true, false][..2] == [false, true];
    assert Flips([false, true, false]) == 2;
    assert [false, true, false, true][..3] == [false, true, false];
    assert Flips([false, true, false, true]) == 3;
    assert a[..4] == [false, true, false, true];
    var b := AboveFlags([101.0, 102.0, 103.0], [Some(100.0), Some(100.0), Some(100.0)]);
    assert b == [true, true, true];
    assert Flips([true]) == 0;
    assert [true, true][..1] == [true];
    assert Flips([true, true]) == 0;
    assert b[..2] == [true, true];
  }

  /** Three of four closes above a flat VWAP give 0.75. */
  lemma PctAboveScenario()
    ensures PctTimeAboveVwap([101.0, 101.0, 99.0, 101.0], [Some(100.0), Some(100.0), Some(100.0), Some(100.0)]) == 0.75
  {
    var v := [Some(100.0), Some(100.0), Some(100.0), Some(100.0)];
    var p := [101.0, 101.0, 99.0, 101.0];
    var v0: seq<Option<real>> := [];
    var p0: seq<real> := [];
    assert [Some(100.0)][..0] == v0 && [101.0][..0] == p0;
    assert CountValid([Some(100.0)]) == 1 && CountAbove([101.0], [Some(100.0)]) == 1;
    assert [Some(100.0), Some(100.0)][..1] == [Some(100.0)] && [101.0, 101.0][..1] == [101.0];
    assert CountValid([Some(100.0), Some(100.0)]) == 2 && CountAbove([101.0, 101.0], [Some(100.0), Some(100.0)]) == 2;
    assert v[..3][..2] == [Some(100.0), Some(100.0)] && p[..3][..2] == [101.0, 101.0];
    assert CountValid(v[..3]) == 3 && CountAbove(p[..3], v[..3]) == 2;
    assert CountValid(v) == 4;
    assert CountAbove(p, v) == 3;
  }

  /** Two equal-volume observations at 100 and 102 give VWAPs 100 then 101. */
  lemma PrefixScenario()
    ensures PrefixVwaps([(100.0, 1000.0), (102.0, 1000.0)]) == [Some(100.0), Some(101.0)]
  {
    var s: seq<(real, real)> := [(100.0, 1000.0), (102.0, 1000.0)];
    assert s[..1] == [(100.0, 1000.0)] && |s[..1][..0]| == 0 && s[..2] == s;
    assert SumPv(s) == 202000.0 && SumVol(s) == 2000.0;
  }

  /** One recorded point of the running VWAP. */
  datatype HistoryEntry = HistoryEntry(timestamp: Instant, vwap: real, cumulativeVolume: real)

  /** The running VWAP of one symbol (class `VWAP`). */
  class Vwap {
    const symbol: string
    var cumulativePv: real
    var cumulativeVolume: real
    var currentVwap: real
    var sessionDate: Option<int>
    var history: seq<HistoryEntry>
    /** The accepted `(price, volume)` observations since the last reset. */
    ghost var session: seq<(real, real)>

    /** The sums, the value and every history point agree with the batch VWAP of the session. */
    ghost predicate Valid()
      reads this
    {
      && AllPositiveVolume(session)
      && cumulativePv == SumPv(session)
      && cumulativeVolume == SumVol(session)
      && Tracks(session, history)
      && (session == [] ==> currentVwap == 0.0)
      && (session != [] ==> Ratio(session) == Some(currentVwap))
    }

    constructor (symbol: string)
      ensures Valid() && this.symbol == symbol
      ensures sessionDate == None && session == [] && history == [] && currentVwap == 0.0
    {
      this.symbol := symbol;
      cumulativePv := 0.0;
      cumulativeVolume := 0.0;
      currentVwap := 0.0;
      sessionDate := None;
      history := [];
      session := [];
    }

    /** Start a new session. */
    method Reset(date: Option<int>)
      modifies this
      ensures Valid()
      ensures sessionDate == date && session == [] && history == []
      ensures cumulativePv == 0.0 && cumulativeVolume == 0.0 && currentVwap == 0.0
    {
      cumulativePv := 0.0;
      cumulativeVolume := 0.0;
      currentVwap := 0.0;
      sessionDate := date;
      history := [];
      session := [];
    }

    /** Add one observation; a new day restarts the session first, and a non-positive volume adds nothing. */
    method Update(timestamp: Instant, typicalPrice: real, volume: real) returns (v: real)
      requires Valid()
      modifies this
      ensures Valid()
      ensures sessionDate == Some(DayOf(timestamp))
      ensures v == currentVwap
      ensures var sameDay := old(sessionDate) == Some(DayOf(timestamp));
        var base := if sameDay then old(session) else [];
        var baseHistory := if sameDay then old(history) else [];
        && (volume <= 0.0 ==> session == base && history == baseHistory
                              && v == (if sameDay then old(currentVwap) else 0.0))
        && (volume > 0.0 ==> session == base + [(typicalPrice, volume)]
                             && history == baseHistory + [HistoryEntry(timestamp, v, cumulativeVolume)])
    {
      if sessionDate != Some(DayOf(timestamp)) {
        Reset(Some(DayOf(timestamp)));
      }
      if volume <= 0.0 {
        return currentVwap;
      }
      var s0 := session;
      var x := (typicalPrice, volume);
      AppendPositive(s0, typicalPrice, volume, cumulativePv, cumulativeVolume);
      var pv := cumulativePv + typicalPrice * volume;
      var vol := cumulativeVolume + volume;
      var e := HistoryEntry(timestamp, pv / vol, vol);
      TracksAppend(s0, history, x, e);
      session := s0 + [x];
      cumulativePv := pv;
      cumulativeVolume := vol;
      if vol > 0.0 {
        currentVwap := pv / vol;
      }
      history := history + [e];
      v := currentVwap;
    }

    /** The running history is the batch VWAP of the session's observations, point by point. */
    lemma HistoryIsBatchVwap()
      requires Valid()
      ensures |PrefixVwaps(session)| == |history|
      ensures forall i :: 0 <= i < |history| ==> PrefixVwaps(session)[i] == Some(history[i].vwap)
    {
    }

    /** Add one bar at its typical price. */
    method UpdateFromBar(timestamp: Instant, high: real, low: real, close: real, volume: real) returns (v: real)
      requires Valid()
      modifies this
      ensures Valid()
      ensures sessionDate == Some(DayOf(timestamp))
      ensures v == currentVwap
      ensures var sameDay := old(sessionDate) == Some(DayOf(timestamp));
        var base := if sameDay then old(session) else [];
        session == (if volume > 0.0 then base + [((high + low + close) / 3.0, volume)] else base)
    {
      v := Update(timestamp, (high + low + close) / 3.0, volume);
    }
  }
}
