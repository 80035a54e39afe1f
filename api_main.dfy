/** The pure slices of the HTTP layer (src/tbot/api/main.py): symbol checks for the watchlist
    and validation endpoints, the quick day-type heuristic and opening-range band of the
    dashboard status (Yahoo and TWS variants), sparkline down-sampling and the MA20 fallback
    mean. The fetches themselves and rounding to cents are not modelled. */
module ApiMain {
  import opened Wrappers
  import opened Num
  import opened Text
  import Watchlist
  import RegimeRules
  import MovingAverage
  import TwsData

  // ---------------------------------------------------------------- symbol checks

  const MaxSymbolLength := 10

  /** `add_to_watchlist`: the upper-cased, stripped symbol, or the HTTP 400 message. */
  function CheckAddSymbol(raw: string): (r: Result<string>)
    ensures r.Success? ==> r.value == Watchlist.Normalize(raw)
  {
    var symbol := Watchlist.Normalize(raw);
    if symbol == [] then Failure("Symbol cannot be empty")
    else if |symbol| > MaxSymbolLength then Failure("Symbol too long")
    else Success(symbol)
  }

  /** A symbol is accepted exactly when cleaning leaves one to ten characters; a rejection
      says whether it was empty or too long. */
  lemma CheckAddSymbolSpec(raw: string)
    ensures var r := CheckAddSymbol(raw);
      (r.Success? <==> 0 < |Watchlist.Normalize(raw)| <= MaxSymbolLength)
      && (r.Failure? ==>
            r.error == (if Watchlist.Normalize(raw) == [] then "Symbol cannot be empty" else "Symbol too long"))
  {
  }

  /** An accepted symbol is upper case, has no surrounding blanks and is left unchanged by
      cleaning it again. */
  lemma AcceptedSymbolIsClean(raw: string)
    requires CheckAddSymbol(raw).Success?
    ensures var s := CheckAddSymbol(raw).value;
      AllUpper(s) && !IsSpace(s[0]) && !IsSpace(s[|s| - 1]) && Watchlist.Normalize(s) == s
  {
    var n := Watchlist.Normalize(raw);
    Watchlist.NormalizeIdempotent(raw);
    UpperIsUpper(raw);
    Watchlist.StripKeepsUpper(Upper(raw));
    assert AllUpper(n);
  }

  datatype FormatError = BadFormat | NotAlphanumeric

  /** The part of `validate_symbol` before the quote lookup: the cleaned symbol and, when it
      is refused without a lookup, the reason. */
  datatype SymbolCheck = SymbolCheck(symbol: string, error: Option<FormatError>)

  function ValidateFormat(raw: string): (r: SymbolCheck)
    ensures r.symbol == Watchlist.Normalize(raw)
  {
    var symbol := Watchlist.Normalize(raw);
    if symbol == [] || |symbol| > MaxSymbolLength then SymbolCheck(symbol, Some(BadFormat))
    else if !IsAlnum(RemoveChar(RemoveChar(symbol, '.'), '-')) then SymbolCheck(symbol, Some(NotAlphanumeric))
    else SymbolCheck(symbol, None)
  }

  predicate SymbolChar(c: char) {
    IsAlnumChar(c) || c == '.' || c == '-'
  }

  /** The character-level reading of the format rule: one to ten letters, digits, dots and
      dashes, with at least one letter or digit. */
  predicate WellFormed(s: string) {
    0 < |s| <= MaxSymbolLength
    && (forall i :: 0 <= i < |s| ==> SymbolChar(s[i]))
    && (exists i :: 0 <= i < |s| && IsAlnumChar(s[i]))
  }

  /** Dropping dots and dashes leaves a non-empty alphanumeric string exactly when every
      character is a symbol character and some character is a letter or digit. */
  lemma StrippedAlnum(s: string)
    ensures IsAlnum(RemoveChar(RemoveChar(s, '.'), '-')) <==>
      (forall i :: 0 <= i < |s| ==> SymbolChar(s[i])) && (exists i :: 0 <= i < |s| && IsAlnumChar(s[i]))
  {
    var u := RemoveChar(s, '.');
    var t := RemoveChar(u, '-');
    assert forall x :: x in t <==> x in s && x != '.' && x != '-';
    if IsAlnum(t) {
      forall i | 0 <= i < |s| ensures SymbolChar(s[i]) {
        if s[i] != '.' && s[i] != '-' {
          assert s[i] in t;
          var j :| 0 <= j < |t| && t[j] == s[i];
          assert IsAlnumChar(t[j]);
        }
      }
      assert t[0] in s;
      var k :| 0 <= k < |s| && s[k] == t[0];
      assert IsAlnumChar(s[k]);
    }
    if (forall i :: 0 <= i < |s| ==> SymbolChar(s[i])) && (exists i :: 0 <= i < |s| && IsAlnumChar(s[i])) {
      var k :| 0 <= k < |s| && IsAlnumChar(s[k]);
      assert s[k] in t;
      forall j | 0 <= j < |t| ensures IsAlnumChar(t[j]) {
        assert t[j] in s;
        var i :| 0 <= i < |s| && s[i] == t[j];
        assert SymbolChar(s[i]);
      }
    }
  }

  /** The format check passes exactly for well-formed cleaned symbols; the length rule is
      checked first, so a long or empty symbol is always reported as a bad format. */
  lemma ValidateFormatSpec(raw: string)
    ensures var r := ValidateFormat(raw);
      (r.error.None? <==> WellFormed(r.symbol))
      && (r.error == Some(BadFormat) <==> !(0 < |r.symbol| <= MaxSymbolLength))
  {
    StrippedAlnum(Watchlist.Normalize(raw));
  }

  /** A symbol that passes the format check is also accepted by the watchlist endpoint, under
      the same spelling. */
  lemma ValidatedIsAddable(raw: string)
    requires ValidateFormat(raw).error.None?
    ensures CheckAddSymbol(raw) == Success(ValidateFormat(raw).symbol)
  {
  }

  /** Re-validating the cleaned symbol gives the same verdict. */
  lemma ValidateFormatIdempotent(raw: string)
    ensures ValidateFormat(ValidateFormat(raw).symbol) == ValidateFormat(raw)
  {
    Watchlist.NormalizeIdempotent(raw);
  }

  // ---------------------------------------------------------------- quick day type

  const EventNewsScore := 0.6
  const EventGap := 0.015
  const TrendMove := 0.02

  /** What a trend reason compares the price with: the open for Yahoo, whose message prints
      the price and the open, or the VWAP for TWS, whose message prints the percentage gap. */
  datatype Reference = AgainstOpen(price: real, open: real) | AgainstVwap(diffPct: real)

  /** How far the price is ahead of its reference; the trend reason tests its sign. */
  function Lead(ref: Reference): real {
    match ref
    case AgainstOpen(price, open) => price - open
    case AgainstVwap(diffPct) => diffPct
  }

  /** The dashboard's reasons, with the numbers each message prints. `Ahead(up, ref)` is "price
      above the open / VWAP" (below for a down day), `Consolidating(up)` its fallback;
      `InsideOpeningRange` is the Yahoo range-day note and `InsideRange` the TWS one. */
  datatype QuickReason =
    | NewsKeywords(keywords: seq<string>)
    | GapOf(pct: real)
    | DayMove(pct: real)
    | Ahead(up: bool, ref: Reference)
    | Consolidating(up: bool)
    | SmallMove(pct: real)
    | InsideOpeningRange
    | InsideRange
    | NoData

  datatype Verdict = Verdict(regime: RegimeRules.Regime, confidence: real, reasons: seq<QuickReason>)

  /** The day-type rule shared by the Yahoo and TWS status builders. `ref` is what the price
      is compared with (the open for Yahoo, the VWAP for TWS). */
  function Quick(newsScore: real, keywords: seq<string>, gap: real, dayChange: real, ref: Reference): (v: Verdict)
    ensures v.regime != RegimeRules.Unknown && v.confidence >= 0.6
    ensures 0 < |v.reasons| <= 3 && NoData !in v.reasons
  {
    if newsScore >= EventNewsScore || Abs(gap) >= EventGap then
      var news := if keywords != [] then [NewsKeywords(keywords[..MinInt(3, |keywords|)])] else [];
      var gapped := if Abs(gap) >= EventGap then [GapOf(gap)] else [];
      Verdict(RegimeRules.Event, Max(newsScore, 0.7), news + gapped + [DayMove(dayChange)])
    else if Abs(dayChange) > TrendMove then
      var confidence := Min(0.7 + Abs(dayChange) * 5.0, 0.95);
      if dayChange > 0.0 then
        Verdict(RegimeRules.TrendUp, confidence,
                [DayMove(dayChange), if Lead(ref) > 0.0 then Ahead(true, ref) else Consolidating(true)])
      else
        Verdict(RegimeRules.TrendDown, confidence,
                [DayMove(dayChange), if Lead(ref) < 0.0 then Ahead(false, ref) else Consolidating(false)])
    else
      Verdict(RegimeRules.Range, 0.6, [SmallMove(dayChange), if ref.AgainstOpen? then InsideOpeningRange else InsideRange])
  }

  /** Which day type is chosen: event first (strong news or a large gap), then a trend in the
      direction of a day move beyond 2%, otherwise a range day; never unknown. */
  lemma QuickRegimeSpec(newsScore: real, keywords: seq<string>, gap: real, dayChange: real, ref: Reference)
    ensures var v := Quick(newsScore, keywords, gap, dayChange, ref);
      var event := newsScore >= EventNewsScore || Abs(gap) >= EventGap;
      (v.regime == RegimeRules.Event <==> event)
      && (v.regime == RegimeRules.TrendUp <==> !event && dayChange > TrendMove)
      && (v.regime == RegimeRules.TrendDown <==> !event && dayChange < -TrendMove)
      && (v.regime == RegimeRules.Range <==> !event && -TrendMove <= dayChange <= TrendMove)
      && v.regime != RegimeRules.Unknown
  {
  }

  /** Confidence: at least 0.7 and at least the news score on an event day (and one of the
      two); strictly above 0.8 and capped at 0.95 on a trend day; 0.6 on a range day. */
  lemma QuickConfidenceSpec(newsScore: real, keywords: seq<string>, gap: real, dayChange: real, ref: Reference)
    ensures var v := Quick(newsScore, keywords, gap, dayChange, ref);
      (v.regime == RegimeRules.Event ==>
         v.confidence >= 0.7 && v.confidence >= newsScore && (v.confidence == 0.7 || v.confidence == newsScore))
      && (v.regime in {RegimeRules.TrendUp, RegimeRules.TrendDown} ==>
         0.8 < v.confidence <= 0.95
         && (Abs(dayChange) <= 0.05 ==> v.confidence == 0.7 + 5.0 * Abs(dayChange))
         && (Abs(dayChange) >= 0.05 ==> v.confidence == 0.95))
      && (v.regime == RegimeRules.Range ==> v.confidence == 0.6)
  {
  }

  /** A bigger day move never lowers a trend day's confidence. */
  lemma TrendConfidenceMonotone(newsScore: real, keywords: seq<string>, gap: real, d1: real, d2: real, ref: Reference)
    requires Quick(newsScore, keywords, gap, d1, ref).regime in {RegimeRules.TrendUp, RegimeRules.TrendDown}
    requires Abs(d1) <= Abs(d2)
    ensures Quick(newsScore, keywords, gap, d2, ref).regime in {RegimeRules.TrendUp, RegimeRules.TrendDown}
    ensures Quick(newsScore, keywords, gap, d1, ref).confidence <= Quick(newsScore, keywords, gap, d2, ref).confidence
  {
  }

  /** The reasons: on an event day, the first three keywords when there are any, the gap when
      it is large, then the day move; otherwise the day move (or the small move) comes first,
      followed by the price-versus-reference reason of the trend's direction. */
  lemma QuickReasonsSpec(newsScore: real, keywords: seq<string>, gap: real, dayChange: real, ref: Reference)
    ensures var v := Quick(newsScore, keywords, gap, dayChange, ref);
      0 < |v.reasons| <= 3
      && (v.regime == RegimeRules.Event ==>
            v.reasons[|v.reasons| - 1] == DayMove(dayChange)
            && (NewsKeywords(keywords[..MinInt(3, |keywords|)]) in v.reasons <==> keywords != [])
            && (GapOf(gap) in v.reasons <==> Abs(gap) >= EventGap))
      && (v.regime == RegimeRules.TrendUp ==>
            v.reasons == [DayMove(dayChange), if Lead(ref) > 0.0 then Ahead(true, ref) else Consolidating(true)])
      && (v.regime == RegimeRules.TrendDown ==>
            v.reasons == [DayMove(dayChange), if Lead(ref) < 0.0 then Ahead(false, ref) else Consolidating(false)])
      && (v.regime == RegimeRules.Range ==> v.reasons == [SmallMove(dayChange), if ref.AgainstOpen? then InsideOpeningRange else InsideRange])
  {
  }

  // ---------------------------------------------------------------- status builders

  /** What the status card shows besides the identity and the MA20. `band` is the
      approximate opening range `(high, low)`, absent when no quote was available. */
  datatype Status = Status(
    verdict: Verdict, vwap: real, vwapDiffPct: real, aboveVwap: bool,
    band: Option<(real, real)>, gapPct: real, dayChange: real)

  /** The error status returned when no quote could be fetched. */
  const Unavailable := Status(Verdict(RegimeRules.Unknown, 0.0, [NoData]), 0.0, 0.0, false, None, 0.0, 0.0)

  /** The fields of a Yahoo quote; a missing field is `None`. */
  datatype Quote = Quote(price: Option<real>, prevClose: Option<real>, open: Option<real>,
                         high: Option<real>, low: Option<real>)

  /** Python's `x or price`: a missing or zero field falls back to the price. */
  function OrPrice(x: Option<real>, price: real): (r: real)
    ensures price != 0.0 ==> r != 0.0
    ensures x.Some? && x.value != 0.0 ==> r == x.value
  {
    if x.Some? && x.value != 0.0 then x.value else price
  }

  /** Half-width of the Yahoo opening band: 30% of the day's range, or 1% of the price when
      high and low coincide. */
  function YahooHalfBand(price: real, high: real, low: real): (r: real)
    ensures high != low ==> r > 0.0
    ensures price > 0.0 ==> r > 0.0
  {
    if high != low then Abs(high - low) * 0.3 else price * 0.01
  }

  /** The TWS variant tests `high > low` instead, so an inverted range also gets 1% of price. */
  function TwsHalfBand(price: real, high: real, low: real): (r: real)
    ensures high > low ==> r > 0.0
    ensures price > 0.0 ==> r > 0.0
  {
    if high > low then Abs(high - low) * 0.3 else price * 0.01
  }

  /** The two variants agree unless the range is inverted; for a positive price both bands
      have positive width, so the band strictly contains the open. */
  lemma HalfBandsSpec(price: real, high: real, low: real)
    ensures high >= low ==> YahooHalfBand(price, high, low) == TwsHalfBand(price, high, low)
    ensures high > low ==> YahooHalfBand(price, high, low) == 0.3 * (high - low)
    ensures high < low ==> YahooHalfBand(price, high, low) == 0.3 * (low - high)
                           && TwsHalfBand(price, high, low) == 0.01 * price
    ensures price > 0.0 ==> YahooHalfBand(price, high, low) > 0.0 && TwsHalfBand(price, high, low) > 0.0
  {
  }

  /** `get_yahoo_stock_status`, given the quote (if any) and the news detector's score and
      keywords. */
  function YahooStatus(quote: Option<Quote>, newsScore: real, keywords: seq<string>): (s: Status)
    ensures s.verdict.regime == RegimeRules.Unknown <==> s == Unavailable
    ensures s.band.Some? <==> s != Unavailable
  {
    if quote.None? || OrPrice(quote.value.price, 0.0) == 0.0 then Unavailable
    else
      var q := quote.value;
      var price := q.price.value;
      var prevClose := OrPrice(q.prevClose, price);
      var open := OrPrice(q.open, price);
      var high := OrPrice(q.high, price);
      var low := OrPrice(q.low, price);
      var vwap := if high != 0.0 && low != 0.0 then (high + low + price) / 3.0 else price;
      var vwapDiffPct := if vwap != 0.0 then (price - vwap) / vwap * 100.0 else 0.0;
      var half := YahooHalfBand(price, high, low);
      var gap := if prevClose != 0.0 then (open - prevClose) / prevClose else 0.0;
      var dayChange := if prevClose != 0.0 then (price - prevClose) / prevClose else 0.0;
      Status(Quick(newsScore, keywords, gap, dayChange, AgainstOpen(price, open)),
             vwap, vwapDiffPct, price > vwap, Some((open + half, open - half)), gap, dayChange)
  }

  /** Without a usable price the card is the error status; with one, every field falls back to
      the price, the gap and day move are measured from the previous close, the approximate VWAP
      is the typical price, and the band is centred on the open. */
  lemma YahooStatusSpec(quote: Option<Quote>, newsScore: real, keywords: seq<string>)
    ensures var s := YahooStatus(quote, newsScore, keywords);
      (s == Unavailable <==> quote.None? || quote.value.price.None? || quote.value.price.value == 0.0)
      && (s != Unavailable ==>
            var q := quote.value;
            var price := q.price.value;
            var prevClose := OrPrice(q.prevClose, price);
            var open := OrPrice(q.open, price);
            prevClose != 0.0
            && s.gapPct * prevClose == open - prevClose
            && s.dayChange * prevClose == price - prevClose
            && s.vwap * 3.0 == OrPrice(q.high, price) + OrPrice(q.low, price) + price
            && s.verdict == Quick(newsScore, keywords, s.gapPct, s.dayChange, AgainstOpen(price, open))
            && s.band.Some?
            && s.band.value.0 - open == open - s.band.value.1 == YahooHalfBand(price, OrPrice(q.high, price), OrPrice(q.low, price)))
  {
    var s := YahooStatus(quote, newsScore, keywords);
    if quote.Some? && quote.value.price.Some? && quote.value.price.value != 0.0 {
      assert s.verdict.reasons != [NoData] by { QuickReasonsSpec(newsScore, keywords, s.gapPct, s.dayChange, AgainstOpen(quote.value.price.value, OrPrice(quote.value.open, quote.value.price.value))); }
      assert s != Unavailable;
    }
  }

  /** A TWS field that is not positive falls back to the price. */
  function PositiveOr(x: real, price: real): real {
    if x > 0.0 then x else price
  }

  /** `get_tws_stock_status`: the cached TWS quote when the service is connected and holds a
      positive price for the symbol; otherwise the Yahoo status computed for the same symbol. */
  function TwsStatus(connected: bool, data: Option<TwsData.StockData>, yahoo: Status,
                     newsScore: real, keywords: seq<string>): (s: Status)
    ensures s != yahoo ==> connected && data.Some? && data.value.price > 0.0
    ensures connected && data.Some? && data.value.price > 0.0 ==>
      s.vwap > 0.0 && s.band.Some? && s.verdict.regime != RegimeRules.Unknown
  {
    if !connected || data.None? || data.value.price <= 0.0 then yahoo
    else
      var d := data.value;
      var price := d.price;
      var vwap := PositiveOr(d.vwap, price);
      var high := PositiveOr(d.high, price);
      var low := PositiveOr(d.low, price);
      var open := PositiveOr(d.open, price);
      var prevClose := PositiveOr(d.close, price);
      var vwapDiffPct := if vwap > 0.0 then (price - vwap) / vwap * 100.0 else 0.0;
      var half := TwsHalfBand(price, high, low);
      var gap := if prevClose > 0.0 then (open - prevClose) / prevClose else 0.0;
      var dayChange := if prevClose > 0.0 then (price - prevClose) / prevClose else 0.0;
      Status(Quick(newsScore, keywords, gap, dayChange, AgainstVwap(vwapDiffPct)),
             vwap, vwapDiffPct, price > vwap, Some((open + half, open - half)), gap, dayChange)
  }

  /** Without a connection or a positive cached price the Yahoo status is passed through. */
  lemma TwsFallsBack(connected: bool, data: Option<TwsData.StockData>, yahoo: Status,
                     newsScore: real, keywords: seq<string>)
    requires !connected || data.None? || data.value.price <= 0.0
    ensures TwsStatus(connected, data, yahoo, newsScore, keywords) == yahoo
  {
  }

  /** With live data every level is positive, the gap and day move are measured from the
      previous close. */
  lemma TwsLiveLevels(data: TwsData.StockData, yahoo: Status, newsScore: real, keywords: seq<string>)
    requires data.price > 0.0
    ensures var s := TwsStatus(true, Some(data), yahoo, newsScore, keywords);
      var open := PositiveOr(data.open, data.price);
      var prevClose := PositiveOr(data.close, data.price);
      s.vwap > 0.0 && prevClose > 0.0 && open > 0.0
      && s.gapPct * prevClose == open - prevClose
      && s.dayChange * prevClose == data.price - prevClose
  {
    var prevClose := PositiveOr(data.close, data.price);
    var s := TwsStatus(true, Some(data), yahoo, newsScore, keywords);
    assert s.gapPct == (PositiveOr(data.open, data.price) - prevClose) / prevClose;
    assert s.dayChange == (data.price - prevClose) / prevClose;
  }

  /** With live data the day type is the shared rule applied to the TWS gap and day move,
      with the trend reason comparing the price with the VWAP. */
  lemma TwsLiveVerdict(data: TwsData.StockData, yahoo: Status, newsScore: real, keywords: seq<string>)
    requires data.price > 0.0
    ensures var s := TwsStatus(true, Some(data), yahoo, newsScore, keywords);
      s.verdict == Quick(newsScore, keywords, s.gapPct, s.dayChange, AgainstVwap(s.vwapDiffPct))
  {
  }

  /** With live data the price is above the VWAP exactly when the VWAP gap is positive, and
      the band strictly contains the open. */
  lemma TwsLiveBand(data: TwsData.StockData, yahoo: Status, newsScore: real, keywords: seq<string>)
    requires data.price > 0.0
    ensures var s := TwsStatus(true, Some(data), yahoo, newsScore, keywords);
      var open := PositiveOr(data.open, data.price);
      (s.aboveVwap <==> s.vwapDiffPct > 0.0)
      && s.band.Some? && s.band.value.1 < open < s.band.value.0
  {
    var vwap := PositiveOr(data.vwap, data.price);
    HalfBandsSpec(data.price, PositiveOr(data.high, data.price), PositiveOr(data.low, data.price));
    SignOfQuotient(data.price - vwap, vwap);
  }

  /** The sign of `x / y` for positive `y` is the sign of `x`. */
  lemma SignOfQuotient(x: real, y: real)
    requires y > 0.0
    ensures x / y * 100.0 > 0.0 <==> x > 0.0
  {
    if x > 0.0 {
      assert x / y > 0.0;
    } else {
      assert x / y <= 0.0;
    }
  }

  // ---------------------------------------------------------------- sparkline

  /** Index of the `i`-th sample when `n` values are thinned to `points`: `floor(i * n / points)`. */
  function SampleIndex(i: int, n: int, points: int): int
    requires points > 0
  {
    (i * n) / points
  }

  /** `fetch_yahoo_sparkline`'s thinning: more values than `points` are reduced to exactly
      `points` samples; fewer are returned as they are. A non-positive `points` with data
      yields nothing (the division by zero is caught and logged). */
  function Sample(values: seq<real>, points: int): (r: seq<real>)
    ensures |r| <= |values| && (points > 0 ==> |r| == MinInt(points, |values|))
    ensures forall x :: x in r ==> x in values
  {
    if |values| > points then
      if points <= 0 then []
      else
        seq(points, i requires 0 <= i < points =>
          SampleIndexBounds(i, |values|, points);
          values[SampleIndex(i, |values|, points)])
    else values
  }

  lemma PositiveFactor(a: int, p: int)
    requires p > 0 && a * p > 0
    ensures a > 0
  {
  }

  lemma DivAtLeast(x: int, p: int, m: int)
    requires p > 0 && x >= m * p
    ensures x / p >= m
  {
    var q := x / p;
    assert x == q * p + x % p;
    assert (q - m + 1) * p == q * p - m * p + p;
    PositiveFactor(q - m + 1, p);
  }

  lemma DivBelow(x: int, p: int, m: int)
    requires p > 0 && x < m * p
    ensures x / p < m
  {
  }

  /** Sample indices stay inside the data, start at 0 and strictly increase. */
  lemma SampleIndexBounds(i: int, n: int, points: int)
    requires 0 < points < n && 0 <= i < points
    ensures 0 <= SampleIndex(i, n, points) < n
    ensures i == 0 ==> SampleIndex(i, n, points) == 0
    ensures i + 1 < points ==> SampleIndex(i, n, points) < SampleIndex(i + 1, n, points)
  {
    SampleIndexInRange(i, n, points);
    SampleIndexStep(i, n, points);
  }

  lemma SampleIndexInRange(i: int, n: int, points: int)
    requires 0 < points < n && 0 <= i < points
    ensures 0 <= SampleIndex(i, n, points) < n
  {
    var x := i * n;
    assert 0 <= x;
    DivAtLeast(x, points, 0);
    assert x <= (points - 1) * n by {
      MulLeft(i, points - 1, n);
    }
    assert (points - 1) * n == points * n - n;
    DivBelow(x, points, n);
  }

  lemma SampleIndexStep(i: int, n: int, points: int)
    requires 0 < points < n && 0 <= i < points
    ensures i + 1 < points ==> SampleIndex(i, n, points) < SampleIndex(i + 1, n, points)
  {
    var x := i * n;
    var q := x / points;
    assert x < (q + 1) * points by {
      assert x == q * points + x % points;
      assert (q + 1) * points == q * points + points;
    }
    assert (i + 1) * n == x + n;
    assert (q + 1) * points + points <= (i + 1) * n + points;
    assert (i + 1) * n >= (q + 1) * points;
    DivAtLeast((i + 1) * n, points, q + 1);
  }

  lemma MulLeft(a: int, b: int, n: int)
    requires 0 <= a <= b && n >= 0
    ensures a * n <= b * n
  {
  }

  /** The sparkline holds `min(points, n)` values, each one of the input values, taken in
      order without repeats, starting with the first; nothing is returned for a non-positive
      `points` with data. */
  lemma SampleSpec(values: seq<real>, points: int)
    ensures var r := Sample(values, points);
      (points <= 0 && values != [] ==> r == [])
      && (points > 0 ==> |r| == MinInt(points, |values|))
      && (|values| <= points ==> r == values)
      && (0 < points < |values| ==>
            r[0] == values[0]
            && forall i :: 0 <= i < points ==>
                 0 <= SampleIndex(i, |values|, points) < |values|
                 && r[i] == values[SampleIndex(i, |values|, points)]
                 && (i + 1 < points ==> SampleIndex(i, |values|, points) < SampleIndex(i + 1, |values|, points)))
  {
    if 0 < points < |values| {
      SampleIndexBounds(0, |values|, points);
      forall i | 0 <= i < points
        ensures 0 <= SampleIndex(i, |values|, points) < |values|
        ensures i + 1 < points ==> SampleIndex(i, |values|, points) < SampleIndex(i + 1, |values|, points)
      {
        SampleIndexBounds(i, |values|, points);
      }
    }
  }

  // ---------------------------------------------------------------- MA20 fallback

  /** The closes that are present, in order (`[c for c in closes if c is not None]`). */
  function Present(closes: seq<Option<real>>): (r: seq<real>)
    ensures |r| <= |closes|
  {
    if closes == [] then []
    else Present(closes[..|closes| - 1]) + (if closes[|closes| - 1].Some? then [closes[|closes| - 1].value] else [])
  }

  /** Exactly the present closes survive ... */
  lemma {:induction false} PresentMembers(closes: seq<Option<real>>)
    ensures forall x :: x in Present(closes) <==> Some(x) in closes
  {
    if closes != [] {
      var init := closes[..|closes| - 1];
      PresentMembers(init);
      assert closes == init + [closes[|closes| - 1]];
      forall x ensures x in Present(closes) <==> Some(x) in closes {
        assert Some(x) in closes <==> Some(x) in init || Some(x) == closes[|closes| - 1];
      }
    }
  }

  /** ... none survives exactly when every close is missing ... */
  lemma {:induction false} PresentEmpty(closes: seq<Option<real>>)
    ensures Present(closes) == [] <==> forall i :: 0 <= i < |closes| ==> closes[i].None?
  {
    if closes != [] {
      var init := closes[..|closes| - 1];
      PresentEmpty(init);
      if Present(closes) == [] {
        assert Present(init) == [];
        forall i | 0 <= i < |closes| ensures closes[i].None? {
          if i < |init| {
            assert init[i] == closes[i];
          }
        }
      } else if closes[|closes| - 1].None? {
        assert Present(init) != [];
        var i :| 0 <= i < |init| && init[i].Some?;
        assert closes[i] == init[i];
      }
    }
  }

  /** ... and with none missing they all survive, in their original order. */
  lemma {:induction false} PresentAll(closes: seq<Option<real>>)
    requires forall i :: 0 <= i < |closes| ==> closes[i].Some?
    ensures |Present(closes)| == |closes|
    ensures forall i :: 0 <= i < |closes| ==> Present(closes)[i] == closes[i].value
  {
    if closes != [] {
      var init := closes[..|closes| - 1];
      assert forall i :: 0 <= i < |init| ==> init[i] == closes[i];
      PresentAll(init);
      assert Present(closes) == Present(init) + [closes[|closes| - 1].value];
    }
  }

  const Ma20Window := 20

  /** `fetch_yahoo_ma20`'s arithmetic: the mean of the last 20 present closes, or of all of
      them when fewer are present, or nothing when none is. */
  function Ma20Fallback(closes: seq<Option<real>>): (r: Option<real>)
    ensures r.None? <==> Present(closes) == []
  {
    LatestMean(Present(closes))
  }

  /** The mean of the last `Ma20Window` values, or of all of them when there are fewer. */
  function LatestMean(valid: seq<real>): (r: Option<real>)
    ensures r.None? <==> valid == []
  {
    if |valid| >= Ma20Window then Some(MovingAverage.Sum(valid[|valid| - Ma20Window..]) / Ma20Window as real)
    else if |valid| > 0 then Some(MovingAverage.Sum(valid) / |valid| as real)
    else None
  }

  /** The fallback is absent exactly when no close is present. */
  lemma Ma20FallbackPresence(closes: seq<Option<real>>)
    ensures Ma20Fallback(closes).None? <==> forall i :: 0 <= i < |closes| ==> closes[i].None?
  {
    PresentEmpty(closes);
  }

  /** With twenty or more present closes the fallback is the daily MA20 of them; with fewer
      it is their plain mean. */
  lemma Ma20FallbackMean(closes: seq<Option<real>>)
    ensures var valid := Present(closes);
      (|valid| >= Ma20Window ==> Ma20Fallback(closes) == MovingAverage.GetMa(valid, Ma20Window))
      && (0 < |valid| < Ma20Window ==>
            Ma20Fallback(closes).Some? && Ma20Fallback(closes).value * |valid| as real == MovingAverage.Sum(valid))
  {
    LatestMeanSpec(Present(closes));
  }

  lemma LatestMeanSpec(valid: seq<real>)
    ensures |valid| >= Ma20Window ==> LatestMean(valid) == MovingAverage.GetMa(valid, Ma20Window)
    ensures 0 < |valid| < Ma20Window ==>
      LatestMean(valid).Some? && LatestMean(valid).value * |valid| as real == MovingAverage.Sum(valid)
  {
    if |valid| >= Ma20Window {
      LatestMeanFull(valid);
    } else if |valid| > 0 {
      LatestMeanShort(valid);
    }
  }

  lemma LatestMeanFull(valid: seq<real>)
    requires |valid| >= Ma20Window
    ensures LatestMean(valid) == MovingAverage.GetMa(valid, Ma20Window)
  {
    var total := MovingAverage.Sum(valid[|valid| - Ma20Window..]);
    var g := MovingAverage.GetMa(valid, Ma20Window);
    assert LatestMean(valid) == Some(total / Ma20Window as real);
    assert g.Some? && g.value * Ma20Window as real == total;
    assert g.value == total / Ma20Window as real;
  }

  lemma LatestMeanShort(valid: seq<real>)
    requires 0 < |valid| < Ma20Window
    ensures LatestMean(valid).Some? && LatestMean(valid).value * |valid| as real == MovingAverage.Sum(valid)
  {
    var n := |valid| as real;
    var total := MovingAverage.Sum(valid);
    assert LatestMean(valid) == Some(total / n);
    assert total / n * n == total;
  }

  /** The fallback lies between any bounds that hold for every present close. */
  lemma Ma20FallbackBounds(closes: seq<Option<real>>, lo: real, hi: real)
    requires MovingAverage.Within(Present(closes), lo, hi)
    requires Ma20Fallback(closes).Some?
    ensures lo <= Ma20Fallback(closes).value <= hi
  {
    LatestMeanBounds(Present(closes), lo, hi);
  }

  lemma LatestMeanBounds(valid: seq<real>, lo: real, hi: real)
    requires MovingAverage.Within(valid, lo, hi)
    requires LatestMean(valid).Some?
    ensures lo <= LatestMean(valid).value <= hi
  {
    LatestMeanSpec(valid);
    if |valid| >= Ma20Window {
      MovingAverage.MaWithinRange(valid, Ma20Window, lo, hi);
    } else {
      MovingAverage.SumWithin(valid, lo, hi);
      var n := |valid| as real;
      var r := LatestMean(valid).value;
      assert r * n == MovingAverage.Sum(valid);
      assert n * lo <= r * n <= n * hi;
    }
  }
}
