/** Aggregation of sub-bars into fixed-interval OHLCV bars (src/tbot/datafeed/bar_aggregator.py). */
module BarAggregation {
  import opened Wrappers
  import opened Num
  import opened Clock

  /** One OHLCV bar; `barCount` is the number of sub-bars merged into it. */
  datatype Bar = Bar(timestamp: Instant, open: real, high: real, low: real, close: real,
                     volume: real, vwap: real, barCount: int)

  /** Python's floor division `a // b`, for a divisor of either sign. */
  function FloorDiv(a: int, b: int): int
    requires b != 0
  {
    if b > 0 then a / b else (-a) / (-b)
  }

  /** Why `_get_bar_start` raises: a zero interval divides by zero, and a negative interval can
      round the start up to midnight or later, which `datetime.replace` rejects as an hour. */
  datatype StartError = ZeroInterval | PastMidnight

  datatype BarStartResult = StartsAt(at: Instant) | Raises(error: StartError)

  /** The length of an interval given with either sign. */
  function Length(k: int): nat { if k >= 0 then k else -k }

  /** The seconds of day floored (in Python's sense) to a multiple of the interval. */
  function StartSeconds(tod: TimeOfDay, interval: int): int
    requires interval != 0
  {
    FloorDiv(tod, interval) * interval
  }

  /** `_get_bar_start` (whole seconds). A positive interval gives the last interval boundary at or
      before the timestamp; a negative one rounds up to the next boundary of its magnitude, and
      fails when that is midnight or later; a zero interval always fails. */
  function BarStart(t: Instant, interval: int): (r: BarStartResult)
    ensures interval == 0 <==> r == Raises(ZeroInterval)
    ensures interval > 0 ==>
      && r.StartsAt? && DayOf(r.at) == DayOf(t) && TimeOf(r.at) % interval == 0
      && r.at <= t < r.at + interval
    ensures interval < 0 && r.StartsAt? ==>
      && DayOf(r.at) == DayOf(t) && TimeOf(r.at) % -interval == 0
      && t <= r.at < t - interval
    ensures interval < 0 && r.Raises? ==>
      r.error == PastMidnight && SecondsPerDay + interval < TimeOf(t)
  {
    if interval == 0 then Raises(ZeroInterval)
    else
      var tod := TimeOf(t);
      var start := StartSeconds(tod, interval);
      StartSecondsSpec(tod, interval);
      if start >= SecondsPerDay then Raises(PastMidnight)
      else
        AtParts(DayOf(t), start);
        StartsAt(At(DayOf(t), start))
  }

  /** Where the floored start lies: at or below the time of day for a positive interval, at or
      above it for a negative one, always within one interval and on a multiple of it. */
  lemma StartSecondsSpec(x: TimeOfDay, k: int)
    requires k != 0
    ensures var s := StartSeconds(x, k);
      && s % Length(k) == 0
      && (k > 0 ==> 0 <= s <= x < s + k)
      && (k < 0 ==> x <= s < x - k)
  {
    if k > 0 {
      FloorMultiple(x, k);
    } else {
      var m := -k;
      var nx := -(x as int);
      var q := nx / m;
      var r := nx % m;
      assert nx == q * m + r && 0 <= r < m;
      var s := StartSeconds(x, k);
      assert s == q * k;
      assert q * k == -(q * m);
      assert s == x + r;
      DivModUnique(s, m, -q, 0);
    }
  }

  lemma FloorMultiple(x: nat, k: int)
    requires k > 0
    ensures 0 <= (x / k) * k <= x < (x / k) * k + k
    ensures ((x / k) * k) % k == 0
  {
    var q := x / k;
    assert x == q * k + x % k;
    DivModUnique(q * k, k, q, 0);
  }

  /** Two instants of one day share a bar start (or fail alike) exactly when their seconds of day
      floor-divide to the same interval index. */
  lemma SameBucket(t1: Instant, t2: Instant, interval: int)
    requires interval != 0 && DayOf(t1) == DayOf(t2)
    ensures BarStart(t1, interval) == BarStart(t2, interval) <==>
      FloorDiv(TimeOf(t1), interval) == FloorDiv(TimeOf(t2), interval)
  {
    var x1, x2 := TimeOf(t1), TimeOf(t2);
    var q1, q2 := FloorDiv(x1, interval), FloorDiv(x2, interval);
    if q1 != q2 {
      MultiplesDiffer(q1, q2, interval);
      StartSecondsSpec(x1, interval);
      StartSecondsSpec(x2, interval);
      if BarStart(t1, interval).StartsAt? && BarStart(t2, interval).StartsAt? {
        AtParts(DayOf(t1), StartSeconds(x1, interval));
        AtParts(DayOf(t2), StartSeconds(x2, interval));
      }
    }
  }

  /** Distinct multiples of `k` are at least `|k|` apart. */
  lemma MultiplesDiffer(q1: int, q2: int, k: int)
    requires k != 0 && q1 != q2
    ensures q1 * k != q2 * k
    ensures k > 0 ==> q1 * k - q2 * k >= k || q2 * k - q1 * k >= k
    ensures k < 0 ==> q1 * k - q2 * k >= -k || q2 * k - q1 * k >= -k
  {
    var m := if k > 0 then k else -k;
    var d := q1 - q2;
    assert q1 * k - q2 * k == d * k;
    if d >= 1 {
      MulMonotone(1, d, m);
    } else {
      MulMonotone(1, -d, m);
    }
    assert d * k == d * m || d * k == -(d * m);
  }

  lemma MulMonotone(a: int, b: int, k: int)
    requires a <= b && k >= 0
    ensures a * k <= b * k
  {
    assert (b - a) * k >= 0;
  }

  /** A sub-bar opens a new bar of its own. */
  function OpenBar(start: Instant, open: real, high: real, low: real, close: real, volume: real, vwap: real): (b: Bar)
    ensures b.barCount == 1 && b.timestamp == start && b.volume == volume
  {
    Bar(start, open, high, low, close, volume, vwap, 1)
  }

  /** A sub-bar of the current interval folded into the current bar. */
  function MergeInto(b: Bar, high: real, low: real, close: real, volume: real, vwap: real): (r: Bar)
    ensures r.timestamp == b.timestamp && r.open == b.open && r.close == close
    ensures b.high <= r.high && high <= r.high && (r.high == b.high || r.high == high)
    ensures r.low <= b.low && r.low <= low && (r.low == b.low || r.low == low)
    ensures r.volume == b.volume + volume && r.barCount == b.barCount + 1
    ensures r.vwap == (if vwap > 0.0 then vwap else b.vwap)
  {
    b.(high := Max(b.high, high), low := Min(b.low, low), close := close,
       volume := b.volume + volume, barCount := b.barCount + 1,
       vwap := if vwap > 0.0 then vwap else b.vwap)
  }

  function TotalVolume(bars: seq<Bar>): real {
    if bars == [] then 0.0 else TotalVolume(bars[..|bars| - 1]) + bars[|bars| - 1].volume
  }

  function TotalCount(bars: seq<Bar>): int {
    if bars == [] then 0 else TotalCount(bars[..|bars| - 1]) + bars[|bars| - 1].barCount
  }

  lemma AppendTotals(bars: seq<Bar>, b: Bar)
    ensures TotalVolume(bars + [b]) == TotalVolume(bars) + b.volume
    ensures TotalCount(bars + [b]) == TotalCount(bars) + b.barCount
  {
    assert (bars + [b])[..|bars|] == bars;
  }

  /** A bar start lies on a boundary of the (non-zero) interval. */
  predicate OnBoundary(t: Instant, interval: int) {
    interval != 0 && TimeOf(t) % Length(interval) == 0
  }

  /** What `on_bar` ends in: the bar it completes, if any, or the exception raised while
      computing the bar start. */
  datatype OnBarOutcome = Done(completed: Option<Bar>) | Raised(error: StartError)

  /** The aggregator of one symbol (class `BarAggregator`). */
  class BarAggregator {
    const symbol: string
    const intervalSeconds: int
    var currentBar: Option<Bar>
    var completedBars: seq<Bar>
    /** Number of registered completion callbacks. */
    var callbacks: nat
    /** Every delivery of a completed bar to a callback, as (callback index, bar). */
    var deliveries: seq<(nat, Bar)>
    /** Sub-bars accepted and their volume since the last reset. */
    ghost var fed: nat
    ghost var volumeFed: real

    /** No sub-bar and no volume is lost or counted twice; completed bars are interval starts.
        With a zero interval no sub-bar is ever accepted. */
    ghost predicate Valid()
      reads this
    {
      && (currentBar.None? ==> completedBars == [] && fed == 0 && volumeFed == 0.0)
      && (currentBar.Some? ==>
            && TotalVolume(completedBars) + currentBar.value.volume == volumeFed
            && TotalCount(completedBars) + currentBar.value.barCount == fed
            && currentBar.value.barCount >= 1
            && OnBoundary(currentBar.value.timestamp, intervalSeconds))
      && (forall i :: 0 <= i < |completedBars| ==>
            completedBars[i].barCount >= 1 && OnBoundary(completedBars[i].timestamp, intervalSeconds))
    }

    /** The dataclass accepts any interval; a zero or negative one only shows when `on_bar` runs. */
    constructor (symbol: string, intervalSeconds: int)
      ensures Valid()
      ensures this.symbol == symbol && this.intervalSeconds == intervalSeconds
      ensures currentBar == None && completedBars == [] && callbacks == 0 && deliveries == []
    {
      this.symbol := symbol;
      this.intervalSeconds := intervalSeconds;
      currentBar := None;
      completedBars := [];
      callbacks := 0;
      deliveries := [];
      fed := 0;
      volumeFed := 0.0;
    }

    method AddCallback()
      requires Valid()
      modifies this
      ensures Valid()
      ensures callbacks == old(callbacks) + 1
      ensures currentBar == old(currentBar) && completedBars == old(completedBars) && deliveries == old(deliveries)
      ensures fed == old(fed) && volumeFed == old(volumeFed)
    {
      callbacks := callbacks + 1;
    }

    /** `on_bar`: returns the bar it completes, if the sub-bar starts a new interval. Each registered
        callback receives the completed bar; one that fails is logged and the rest still run. When
        the bar start cannot be computed the exception leaves the aggregator untouched. */
    method OnBar(timestamp: Instant, open: real, high: real, low: real, close: real, volume: real, vwap: real)
      returns (outcome: OnBarOutcome)
      requires Valid()
      modifies this
      ensures Valid()
      ensures callbacks == old(callbacks)
      ensures BarStart(timestamp, intervalSeconds).Raises? ==>
        && outcome == Raised(BarStart(timestamp, intervalSeconds).error)
        && currentBar == old(currentBar) && completedBars == old(completedBars) && deliveries == old(deliveries)
        && fed == old(fed) && volumeFed == old(volumeFed)
      ensures BarStart(timestamp, intervalSeconds).StartsAt? ==>
        && fed == old(fed) + 1 && volumeFed == old(volumeFed) + volume
        && var start := BarStart(timestamp, intervalSeconds).at;
        var newBar := OpenBar(start, open, high, low, close, volume, vwap);
        match old(currentBar)
        case None =>
          outcome == Done(None) && currentBar == Some(newBar)
          && completedBars == old(completedBars) && deliveries == old(deliveries)
        case Some(cur) =>
          if cur.timestamp != start then
            && outcome == Done(Some(cur)) && currentBar == Some(newBar)
            && completedBars == old(completedBars) + [cur]
            && deliveries == old(deliveries) + seq(callbacks, i => (i, cur))
          else
            && outcome == Done(None) && currentBar == Some(MergeInto(cur, high, low, close, volume, vwap))
            && completedBars == old(completedBars) && deliveries == old(deliveries)
    {
      var bs := BarStart(timestamp, intervalSeconds);
      if bs.Raises? {
        return Raised(bs.error);
      }
      var completed := Accept(bs.at, open, high, low, close, volume, vwap);
      outcome := Done(completed);
    }

    /** The body of `on_bar` once the bar start `start` is known. */
    method Accept(start: Instant, open: real, high: real, low: real, close: real, volume: real, vwap: real)
      returns (completed: Option<Bar>)
      requires Valid() && OnBoundary(start, intervalSeconds)
      modifies this
      ensures Valid()
      ensures callbacks == old(callbacks)
      ensures fed == old(fed) + 1 && volumeFed == old(volumeFed) + volume
      ensures var newBar := OpenBar(start, open, high, low, close, volume, vwap);
        match old(currentBar)
        case None =>
          completed == None && currentBar == Some(newBar)
          && completedBars == old(completedBars) && deliveries == old(deliveries)
        case Some(cur) =>
          if cur.timestamp != start then
            && completed == Some(cur) && currentBar == Some(newBar)
            && completedBars == old(completedBars) + [cur]
            && deliveries == old(deliveries) + seq(callbacks, i => (i, cur))
          else
            && completed == None && currentBar == Some(MergeInto(cur, high, low, close, volume, vwap))
            && completedBars == old(completedBars) && deliveries == old(deliveries)
    {
      completed := None;
      fed := fed + 1;
      volumeFed := volumeFed + volume;
      match currentBar
      case None =>
        currentBar := Some(OpenBar(start, open, high, low, close, volume, vwap));
      case Some(cur) =>
        if cur.timestamp != start {
          completed := Some(cur);
          AppendTotals(completedBars, cur);
          completedBars := completedBars + [cur];
          var batch: seq<(nat, Bar)> := [];
          var i := 0;
          while i < callbacks
            invariant 0 <= i <= callbacks
            invariant batch == seq(i, k => (k, cur))
          {
            batch := batch + [(i, cur)];
            i := i + 1;
          }
          deliveries := deliveries + batch;
          currentBar := Some(OpenBar(start, open, high, low, close, volume, vwap));
        } else {
          currentBar := Some(MergeInto(cur, high, low, close, volume, vwap));
        }
    }

    /** With a zero interval every sub-bar is refused, so nothing is ever aggregated. */
    lemma ZeroIntervalAggregatesNothing()
      requires Valid() && intervalSeconds == 0
      ensures currentBar == None && completedBars == []
    {
    }

    /** `completed_bars`: a copy of the finished bars, oldest first; each merges at least one
        sub-bar and starts on an interval boundary. */
    function CompletedBars(): (r: seq<Bar>)
      reads this
      ensures Valid() ==> forall i :: 0 <= i < |r| ==>
        r[i].barCount >= 1 && OnBoundary(r[i].timestamp, intervalSeconds)
    {
      completedBars
    }

    method Reset()
      requires Valid()
      modifies this
      ensures Valid()
      ensures currentBar == None && completedBars == []
      ensures callbacks == old(callbacks) && deliveries == old(deliveries)
    {
      currentBar := None;
      completedBars := [];
      fed := 0;
      volumeFed := 0.0;
    }
  }
}
