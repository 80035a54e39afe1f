/** Opening range (src/tbot/indicators/opening_range.py): the high and low of the first
    5 and 15 minutes of the session, tracked bar by bar, plus batch helpers. */
module OpeningRangeIndicator {
  import opened Wrappers
  import opened Clock
  import opened Candles

  /** One opening-range window: its extremes so far and whether it has closed. */
  datatype Window = Window(high: Option<real>, low: Option<real>, complete: bool)

  const Fresh := Window(None, None, false)

  /** High and low are recorded together, so they are absent together. */
  predicate Paired(w: Window) {
    w.high.Some? <==> w.low.Some?
  }

  /** Feed one bar, `minutes` after the open, to a window lasting `length` minutes.
      The boolean is false when the window closes without having seen a bar: the source's
      completion log then formats a missing high and raises, after the flag is already set. */
  function StepWindow(w: Window, minutes: int, length: int, high: real, low: real): (r: (Window, bool))
    ensures w.complete ==> r == (w, true)
    ensures !w.complete && minutes < length ==>
      && r.1 && !r.0.complete && r.0.high.Some? && r.0.low.Some?
      && high <= r.0.high.value && (w.high.Some? ==> w.high.value <= r.0.high.value)
      && (r.0.high.value == high || r.0.high == w.high)
      && r.0.low.value <= low && (w.low.Some? ==> r.0.low.value <= w.low.value)
      && (r.0.low.value == low || r.0.low == w.low)
    ensures !w.complete && minutes >= length ==>
      r.0 == Window(w.high, w.low, true) && (r.1 <==> w.high.Some?)
    ensures Paired(w) ==> Paired(r.0)
  {
    if w.complete then (w, true)
    else if minutes < length then
      var h := if w.high.None? || high > w.high.value then high else w.high.value;
      var l := if w.low.None? || low < w.low.value then low else w.low.value;
      (Window(Some(h), Some(l), false), true)
    else
      (Window(w.high, w.low, true), w.high.Some?)
  }

  /** Largest and smallest of a non-empty sequence of reals. */
  function SeqMax(s: seq<real>): (r: real)
    requires s != []
    ensures (forall i :: 0 <= i < |s| ==> s[i] <= r) && exists i :: 0 <= i < |s| && s[i] == r
  {
    if |s| == 1 then s[0]
    else
      var m := SeqMax(s[..|s| - 1]);
      assert forall i :: 0 <= i < |s| - 1 ==> s[..|s| - 1][i] == s[i];
      if s[|s| - 1] > m then s[|s| - 1] else m
  }

  function SeqMin(s: seq<real>): (r: real)
    requires s != []
    ensures (forall i :: 0 <= i < |s| ==> r <= s[i]) && exists i :: 0 <= i < |s| && s[i] == r
  {
    if |s| == 1 then s[0]
    else
      var m := SeqMin(s[..|s| - 1]);
      assert forall i :: 0 <= i < |s| - 1 ==> s[..|s| - 1][i] == s[i];
      if s[|s| - 1] < m then s[|s| - 1] else m
  }

  /** A bar as the tracker sees it: minutes since the open, high and low. */
  datatype Tick = Tick(minutes: int, high: real, low: real)

  function Highs(ts: seq<Tick>): (r: seq<real>)
    ensures |r| == |ts| && forall i :: 0 <= i < |ts| ==> r[i] == ts[i].high
  {
    if ts == [] then [] else Highs(ts[..|ts| - 1]) + [ts[|ts| - 1].high]
  }

  function Lows(ts: seq<Tick>): (r: seq<real>)
    ensures |r| == |ts| && forall i :: 0 <= i < |ts| ==> r[i] == ts[i].low
  {
    if ts == [] then [] else Lows(ts[..|ts| - 1]) + [ts[|ts| - 1].low]
  }

  /** The window after a run of ticks: a tick at or past the window's length closes it, a closed
      window stays closed, and high and low stay recorded together. */
  function Feed(w: Window, ts: seq<Tick>, length: int): (r: Window)
    ensures w.complete ==> r.complete
    ensures (exists i :: 0 <= i < |ts| && ts[i].minutes >= length) ==> r.complete
    ensures Paired(w) ==> Paired(r)
  {
    if ts == [] then w
    else
      var last := ts[|ts| - 1];
      StepWindow(Feed(w, ts[..|ts| - 1], length), last.minutes, length, last.high, last.low).0
  }

  /** While every tick falls inside the window, it stays open and holds the extremes of the ticks seen. */
  lemma {:induction false} FeedTracksExtremes(ts: seq<Tick>, length: int)
    requires ts != []
    requires forall i :: 0 <= i < |ts| ==> ts[i].minutes < length
    ensures var w := Feed(Fresh, ts, length);
      !w.complete && w.high == Some(SeqMax(Highs(ts))) && w.low == Some(SeqMin(Lows(ts)))
  {
    var init := ts[..|ts| - 1];
    var last := ts[|ts| - 1];
    assert Highs(ts)[..|ts| - 1] == Highs(init);
    assert Lows(ts)[..|ts| - 1] == Lows(init);
    if init == [] {
      assert Feed(Fresh, init, length) == Fresh;
    } else {
      FeedTracksExtremes(init, length);
    }
  }

  /** Once closed, a window never changes again, whatever the ticks. */
  lemma {:induction false} CompleteIsFinal(w: Window, ts: seq<Tick>, length: int)
    requires w.complete
    ensures Feed(w, ts, length) == w
  {
    if ts != [] {
      CompleteIsFinal(w, ts[..|ts| - 1], length);
    }
  }

  /** Five ticks at 09:30-09:34 then one at 09:35: the five-minute range closes at 103 / 97. */
  lemma Or5Scenario()
    ensures Feed(Fresh, [Tick(0, 101.0, 99.0), Tick(1, 102.0, 98.0), Tick(2, 100.0, 99.0), Tick(3, 103.0, 97.0),
                         Tick(4, 101.0, 99.0), Tick(5, 100.0, 100.0)], 5)
            == Window(Some(103.0), Some(97.0), true)
  {
    var ts := [Tick(0, 101.0, 99.0), Tick(1, 102.0, 98.0), Tick(2, 100.0, 99.0), Tick(3, 103.0, 97.0),
               Tick(4, 101.0, 99.0), Tick(5, 100.0, 100.0)];
    var w1 := Window(Some(101.0), Some(99.0), false);
    var w2 := Window(Some(102.0), Some(98.0), false);
    var w4 := Window(Some(103.0), Some(97.0), false);
    assert ts[..1] == [ts[0]] && Feed(Fresh, ts[..1][..0], 5) == Fresh;
    assert Feed(Fresh, ts[..1], 5) == w1;
    assert ts[..2][..1] == ts[..1];
    assert Feed(Fresh, ts[..2], 5) == w2;
    assert ts[..3][..2] == ts[..2];
    assert Feed(Fresh, ts[..3], 5) == w2;
    assert ts[..4][..3] == ts[..3];
    assert Feed(Fresh, ts[..4], 5) == w4;
    assert ts[..5][..4] == ts[..4];
    assert Feed(Fresh, ts[..5], 5) == w4;
    assert ts[..5] == ts[..|ts| - 1];
  }

  datatype Breakout = Up | Down

  /** The opening-range tracker of one symbol (class `OpeningRange`). */
  class OpeningRange {
    const symbol: string
    const or5Minutes: int
    const or15Minutes: int
    const marketOpen: int  // minutes after midnight
    var or5: Window
    var or15: Window
    var sessionDate: Option<int>

    ghost predicate Valid()
      reads this
    {
      Paired(or5) && Paired(or15)
    }

    constructor (symbol: string, or5Minutes: int, or15Minutes: int, marketOpen: int)
      ensures Valid()
      ensures this.symbol == symbol && this.or5Minutes == or5Minutes && this.or15Minutes == or15Minutes
      ensures this.marketOpen == marketOpen
      ensures or5 == Fresh && or15 == Fresh && sessionDate == None
    {
      this.symbol := symbol;
      this.or5Minutes := or5Minutes;
      this.or15Minutes := or15Minutes;
      this.marketOpen := marketOpen;
      or5 := Fresh;
      or15 := Fresh;
      sessionDate := None;
    }

    /** Whole minutes between the open and the bar's time of day (seconds are dropped). */
    function MinutesSinceOpen(t: Instant): int
      reads this
    {
      MinuteOf(TimeOf(t)) - marketOpen
    }

    method Reset(date: Option<int>)
      modifies this
      ensures Valid()
      ensures or5 == Fresh && or15 == Fresh && sessionDate == date
    {
      or5 := Fresh;
      or15 := Fresh;
      sessionDate := date;
    }

    /** Feed one bar; `ok` is false where the source raises on closing an empty window. */
    method Update(timestamp: Instant, high: real, low: real) returns (ok: bool)
      requires Valid()
      modifies this
      ensures Valid()
      ensures sessionDate == Some(DayOf(timestamp))
      ensures var sameDay := old(sessionDate) == Some(DayOf(timestamp));
        var w5 := if sameDay then old(or5) else Fresh;
        var w15 := if sameDay then old(or15) else Fresh;
        var m := MinutesSinceOpen(timestamp);
        if m < 0 then or5 == w5 && or15 == w15 && ok
        else
          var s5 := StepWindow(w5, m, or5Minutes, high, low);
          var s15 := StepWindow(w15, m, or15Minutes, high, low);
          or5 == s5.0 && (if s5.1 then or15 == s15.0 && ok == s15.1 else or15 == w15 && !ok)
    {
      if sessionDate != Some(DayOf(timestamp)) {
        Reset(Some(DayOf(timestamp)));
      }
      var m := MinutesSinceOpen(timestamp);
      if m < 0 {
        return true;
      }
      var s5 := StepWindow(or5, m, or5Minutes, high, low);
      or5 := s5.0;
      if !s5.1 {
        return false;
      }
      var s15 := StepWindow(or15, m, or15Minutes, high, low);
      or15 := s15.0;
      ok := s15.1;
    }

    function Or5Width(): (r: Option<real>)
      reads this
      ensures r.Some? <==> or5.high.Some? && or5.low.Some?
      ensures r.Some? ==> or5.low.value + r.value == or5.high.value
    {
      if or5.high.Some? && or5.low.Some? then Some(or5.high.value - or5.low.value) else None
    }

    function Or15Width(): (r: Option<real>)
      reads this
      ensures r.Some? <==> or15.high.Some? && or15.low.Some?
      ensures r.Some? ==> or15.low.value + r.value == or15.high.value
    {
      if or15.high.Some? && or15.low.Some? then Some(or15.high.value - or15.low.value) else None
    }

    /** A breakout of the fifteen-minute range; nothing before that range has closed. */
    function CheckBreakout(price: real): (r: Option<Breakout>)
      reads this
      ensures !or15.complete ==> r == None
      ensures r == Some(Up) <==> or15.complete && or15.high.Some? && price > or15.high.value
      ensures r == Some(Down) <==>
        or15.complete && !(or15.high.Some? && price > or15.high.value) && or15.low.Some? && price < or15.low.value
    {
      if !or15.complete then None
      else if or15.high.Some? && price > or15.high.value then Some(Up)
      else if or15.low.Some? && price < or15.low.value then Some(Down)
      else None
    }
  }

  /** Result of the batch opening range. */
  datatype RangeResult =
    | NoRange                          // no bar before the cutoff: `(None, None)`
    | RangeOf(high: real, low: real)
    | InvalidCutoff                    // `time(h, m + or_minutes)` with a minute outside 0..59 raises

  predicate Before(c: Candle, cutoff: TimeOfDay) {
    TimeOf(c.time) < cutoff
  }

  /** Highest high among the bars before the cutoff. */
  function HighBefore(cs: seq<Candle>, cutoff: TimeOfDay): (r: Option<real>)
    ensures r.None? <==> forall i :: 0 <= i < |cs| ==> !Before(cs[i], cutoff)
    ensures r.Some? ==> (forall i :: 0 <= i < |cs| && Before(cs[i], cutoff) ==> cs[i].high <= r.value)
                        && exists i :: 0 <= i < |cs| && Before(cs[i], cutoff) && cs[i].high == r.value
  {
    if cs == [] then None
    else
      var rest := HighBefore(cs[..|cs| - 1], cutoff);
      var c := cs[|cs| - 1];
      assert forall i :: 0 <= i < |cs| - 1 ==> cs[..|cs| - 1][i] == cs[i];
      if !Before(c, cutoff) then rest
      else if rest.None? || c.high > rest.value then Some(c.high)
      else rest
  }

  /** Lowest low among the bars before the cutoff. */
  function LowBefore(cs: seq<Candle>, cutoff: TimeOfDay): (r: Option<real>)
    ensures r.None? <==> forall i :: 0 <= i < |cs| ==> !Before(cs[i], cutoff)
    ensures r.Some? ==> (forall i :: 0 <= i < |cs| && Before(cs[i], cutoff) ==> r.value <= cs[i].low)
                        && exists i :: 0 <= i < |cs| && Before(cs[i], cutoff) && cs[i].low == r.value
  {
    if cs == [] then None
    else
      var rest := LowBefore(cs[..|cs| - 1], cutoff);
      var c := cs[|cs| - 1];
      assert forall i :: 0 <= i < |cs| - 1 ==> cs[..|cs| - 1][i] == cs[i];
      if !Before(c, cutoff) then rest
      else if rest.None? || c.low < rest.value then Some(c.low)
      else rest
  }

  /** `calculate_opening_range`: extremes of the bars whose time of day is before
      `open_hour:(open_minute + or_minutes)`. */
  function CalculateOpeningRange(cs: seq<Candle>, orMinutes: int, openHour: int, openMinute: int): (r: RangeResult)
    requires 0 <= openHour < 24
    ensures !(0 <= openMinute + orMinutes < 60) ==> r == InvalidCutoff || cs == []
    ensures cs == [] ==> r == NoRange
    ensures 0 <= openMinute + orMinutes < 60 ==>
      var cutoff := openHour * 3600 + (openMinute + orMinutes) * 60;
      && (r == NoRange <==> forall i :: 0 <= i < |cs| ==> !Before(cs[i], cutoff))
      && (r.RangeOf? ==>
            && (forall i :: 0 <= i < |cs| && Before(cs[i], cutoff) ==> cs[i].high <= r.high && r.low <= cs[i].low)
            && (exists i :: 0 <= i < |cs| && Before(cs[i], cutoff) && cs[i].high == r.high)
            && (exists i :: 0 <= i < |cs| && Before(cs[i], cutoff) && cs[i].low == r.low))
  {
    if cs == [] then NoRange
    else if !(0 <= openMinute + orMinutes < 60) then InvalidCutoff
    else
      var cutoff := openHour * 3600 + (openMinute + orMinutes) * 60;
      var h := HighBefore(cs, cutoff);
      var l := LowBefore(cs, cutoff);
      if h.None? || l.None? then NoRange else RangeOf(h.value, l.value)
  }

  /** Where a close sits relative to the opening range. */
  datatype Zone = Inside | Above | Below

  function ZoneOf(close: real, orHigh: real, orLow: real): (z: Zone)
    ensures z == Above <==> close > orHigh
    ensures z == Below <==> !(close > orHigh) && close < orLow
  {
    if close > orHigh then Above else if close < orLow then Below else Inside
  }

  function Zones(closes: seq<real>, orHigh: real, orLow: real): (r: seq<Zone>)
    ensures |r| == |closes| && forall i :: 0 <= i < |closes| ==> r[i] == ZoneOf(closes[i], orHigh, orLow)
  {
    if closes == [] then [] else Zones(closes[..|closes| - 1], orHigh, orLow) + [ZoneOf(closes[|closes| - 1], orHigh, orLow)]
  }

  /** Whether position `i` enters `target`: it is there and the previous one (or the start, inside) was not. */
  predicate EntersAt(zs: seq<Zone>, i: int, target: Zone)
    requires 0 <= i < |zs|
  {
    zs[i] == target && (if i == 0 then target != Inside else zs[i - 1] != target)
  }

  /** Number of entries into `target`: at most one per close. */
  function Entries(zs: seq<Zone>, target: Zone): (r: nat)
    ensures r <= |zs|
  {
    if zs == [] then 0
    else
      var n := |zs| - 1;
      Entries(zs[..n], target) + (if EntersAt(zs, n, target) then 1 else 0)
  }

  /** A zone never visited is never entered. */
  lemma {:induction false} UnvisitedNotEntered(zs: seq<Zone>, target: Zone)
    requires target !in zs
    ensures Entries(zs, target) == 0
  {
    if zs != [] {
      var n := |zs| - 1;
      assert target !in zs[..n] by {
        forall k | 0 <= k < n ensures zs[..n][k] != target {
          assert zs[..n][k] == zs[k];
        }
      }
      UnvisitedNotEntered(zs[..n], target);
    }
  }

  /** Entries into above and below together never exceed the number of closes, and a zone visited
      at all was entered at least once. */
  lemma {:induction false} EntriesBounds(zs: seq<Zone>)
    ensures Entries(zs, Above) + Entries(zs, Below) <= |zs|
    ensures Above in zs ==> Entries(zs, Above) >= 1
    ensures Below in zs ==> Entries(zs, Below) >= 1
  {
    if zs != [] {
      var n := |zs| - 1;
      EntriesBounds(zs[..n]);
      assert zs == zs[..n] + [zs[n]];
      if zs[n] != Inside {
        EnteredBeforeLast(zs, zs[n]);
      }
    }
  }

  /** A run of `target` ending at the last position began with an entry. */
  lemma {:induction false} EnteredBeforeLast(zs: seq<Zone>, target: Zone)
    requires zs != [] && zs[|zs| - 1] == target && target != Inside
    ensures Entries(zs, target) >= 1
  {
    var n := |zs| - 1;
    if n > 0 && zs[n - 1] == target {
      assert zs[..n][n - 1] == target;
      EnteredBeforeLast(zs[..n], target);
    }
  }

  /** `count_or_breakouts`: entries into the above and below zones, starting from inside. */
  method CountOrBreakouts(closes: seq<real>, orHigh: real, orLow: real) returns (up: nat, down: nat)
    ensures up == Entries(Zones(closes, orHigh, orLow), Above)
    ensures down == Entries(Zones(closes, orHigh, orLow), Below)
  {
    ghost var zs := Zones(closes, orHigh, orLow);
    up, down := 0, 0;
    var lastState := Inside;
    var i := 0;
    while i < |closes|
      invariant 0 <= i <= |closes|
      invariant up == Entries(zs[..i], Above) && down == Entries(zs[..i], Below)
      invariant lastState == (if i == 0 then Inside else zs[i - 1])
    {
      var close := closes[i];
      assert zs[..i + 1][..i] == zs[..i];
      if close > orHigh {
        if lastState != Above {
          up := up + 1;
        }
        lastState := Above;
      } else if close < orLow {
        if lastState != Below {
          down := down + 1;
        }
        lastState := Below;
      } else {
        lastState := Inside;
      }
      i := i + 1;
    }
    assert zs[..|closes|] == zs;
  }

  /** Inside, above, inside, below, inside: one breakout each way. */
  lemma BreakoutScenario()
    ensures Entries(Zones([95.0, 101.0, 95.0, 89.0, 95.0], 100.0, 90.0), Above) == 1
    ensures Entries(Zones([95.0, 101.0, 95.0, 89.0, 95.0], 100.0, 90.0), Below) == 1
  {
    var zs := Zones([95.0, 101.0, 95.0, 89.0, 95.0], 100.0, 90.0);
    assert zs == [Inside, Above, Inside, Below, Inside];
    var z1, z2, z3, z4 := [Inside], [Inside, Above], [Inside, Above, Inside], [Inside, Above, Inside, Below];
    assert |z1[..0]| == 0 && z2[..1] == z1 && z3[..2] == z2 && z4[..3] == z3 && zs[..4] == z4;
    assert Entries(z1, Above) == 0 && Entries(z1, Below) == 0;
    assert Entries(z2, Above) == 1 && Entries(z2, Below) == 0;
    assert Entries(z3, Above) == 1 && Entries(z3, Below) == 0;
    assert Entries(z4, Above) == 1 && Entries(z4, Below) == 1;
  }
}
