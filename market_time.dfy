/** Trading-session arithmetic on a US Eastern time of day (src/tbot/utils/time.py).
    Time-zone conversion is outside the model: every operation takes the ET time of day. */
module MarketTime {
  import opened Clock
  import Wrappers

  datatype MarketSession =
    | Premarket | Opening | Morning | Midday | Afternoon | CloseOnly | Afterhours | Closed

  const MarketOpen: TimeOfDay := 34200      // 09:30
  const NoTradeEnd: TimeOfDay := 35100      // 09:45
  const MorningEnd: TimeOfDay := 41400      // 11:30
  const MiddayEnd: TimeOfDay := 48600       // 13:30
  const CloseOnlyStart: TimeOfDay := 56700  // 15:45
  const MarketClose: TimeOfDay := 57600     // 16:00

  /** A half-open window `[start, end)` in which tactical trading is allowed. */
  datatype TradingWindow = TradingWindow(start: TimeOfDay, end: TimeOfDay)

  const TradingWindows: seq<TradingWindow> :=
    [TradingWindow(35100, 39600), TradingWindow(48600, 55800)]  // 09:45-11:00, 13:30-15:30

  /** The session the given time falls into; `Closed` is declared but never produced. */
  function SessionAt(t: TimeOfDay): (s: MarketSession)
    ensures s != Closed
    ensures s == Premarket <==> t < MarketOpen
    ensures s == Opening <==> MarketOpen <= t < NoTradeEnd
    ensures s == Morning <==> NoTradeEnd <= t < MorningEnd
    ensures s == Midday <==> MorningEnd <= t < MiddayEnd
    ensures s == Afternoon <==> MiddayEnd <= t < CloseOnlyStart
    ensures s == CloseOnly <==> CloseOnlyStart <= t < MarketClose
    ensures s == Afterhours <==> MarketClose <= t
  {
    if t < MarketOpen then Premarket
    else if t < NoTradeEnd then Opening
    else if t < MorningEnd then Morning
    else if t < MiddayEnd then Midday
    else if t < CloseOnlyStart then Afternoon
    else if t < MarketClose then CloseOnly
    else Afterhours
  }

  /** Regular hours are `[09:30, 16:00)`: exactly the sessions between pre-market and after-hours. */
  function IsMarketOpen(t: TimeOfDay): (r: bool)
    ensures r <==> SessionAt(t) !in {Premarket, Afterhours, Closed}
  {
    MarketOpen <= t < MarketClose
  }

  /** Why trading is or is not allowed at a given time. */
  datatype AllowReason =
    | InWindow(window: TradingWindow)
    | OpeningObservation
    | MiddayBreak
    | CloseOnlyPeriod
    | OutsideHours
    | NotInWindow

  function FirstWindow(ws: seq<TradingWindow>, t: TimeOfDay): (r: Wrappers.Option<TradingWindow>)
    ensures r.Some? <==> exists i :: 0 <= i < |ws| && ws[i].start <= t < ws[i].end
    ensures r.Some? ==> r.value in ws && r.value.start <= t < r.value.end
  {
    if ws == [] then Wrappers.None
    else if ws[0].start <= t < ws[0].end then Wrappers.Some(ws[0])
    else
      var rest := FirstWindow(ws[1..], t);
      assert forall i :: 1 <= i < |ws| ==> ws[i] == ws[1..][i - 1];
      rest
  }

  /** `is_trading_allowed`: the first window containing `t` admits it; otherwise the session names the reason. */
  function TradingAllowed(t: TimeOfDay): (r: (bool, AllowReason))
    ensures r.0 <==> (35100 <= t < 39600 || 48600 <= t < 55800)
    ensures r.0 <==> r.1.InWindow?
    ensures r.1 == OpeningObservation <==> SessionAt(t) == Opening
    ensures r.1 == MiddayBreak <==> SessionAt(t) == Midday
    ensures r.1 == CloseOnlyPeriod <==> SessionAt(t) == CloseOnly
    ensures r.1 == OutsideHours <==> SessionAt(t) in {Premarket, Afterhours}
    ensures r.1 == NotInWindow <==> (39600 <= t < MorningEnd || 55800 <= t < CloseOnlyStart)
  {
    match FirstWindow(TradingWindows, t)
    case Some(w) => (true, InWindow(w))
    case None =>
      var session := SessionAt(t);
      if session == Opening then (false, OpeningObservation)
      else if session == Midday then (false, MiddayBreak)
      else if session == CloseOnly then (false, CloseOnlyPeriod)
      else if session in [Premarket, Afterhours] then (false, OutsideHours)
      else (false, NotInWindow)
  }

  /** Fraction of the regular session elapsed, counted in whole minutes. */
  function TradingProgress(t: TimeOfDay): (r: real)
    ensures 0.0 <= r <= 1.0
    ensures t < MarketOpen ==> r == 0.0
    ensures t >= MarketClose ==> r == 1.0
    ensures MarketOpen <= t < MarketClose ==> r * 390.0 == (MinuteOf(t) - 570) as real
  {
    if t < MarketOpen then 0.0
    else if t >= MarketClose then 1.0
    else (MinuteOf(t) - 570) as real / 390.0
  }

  /** Progress never decreases over the day. */
  lemma ProgressMonotone(t1: TimeOfDay, t2: TimeOfDay)
    requires t1 <= t2
    ensures TradingProgress(t1) <= TradingProgress(t2)
  {
    if MarketOpen <= t1 && t2 < MarketClose {
      assert MinuteOf(t1) <= MinuteOf(t2);
    }
  }
}
