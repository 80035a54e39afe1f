/** Small shared vocabulary: optional values, real arithmetic helpers,
    ASCII text helpers and the decomposition of instants into day and time of day. */
module Wrappers {
  /** A value that may be absent (Python's `None`). */
  datatype Option<T> = None | Some(value: T) {
    function GetOr(default: T): T {
      match this
      case Some(v) => v
      case None => default
    }
  }

  /** A value, or the message of the exception that prevented it. */
  datatype Result<T> = Success(value: T) | Failure(error: string)
}

module Num {
  function Min(a: real, b: real): real { if a <= b then a else b }
  function Max(a: real, b: real): real { if a >= b then a else b }
  function Abs(a: real): real { if a >= 0.0 then a else -a }
  function MinInt(a: int, b: int): int { if a <= b then a else b }
  function MaxInt(a: int, b: int): int { if a >= b then a else b }

  /** Python's `int(x)` on a float: truncation toward zero. */
  function Trunc(x: real): (r: int)
    ensures x >= 0.0 ==> r as real <= x < r as real + 1.0
    ensures x < 0.0 ==> r as real - 1.0 < x <= r as real
    ensures Abs(r as real) <= Abs(x)
  {
    if x >= 0.0 then x.Floor else -((-x).Floor)
  }
}

/** ASCII approximations of Python's `str.upper`, `str.strip` and `str.isalnum`. */
module Text {
  function UpperChar(c: char): char {
    if 'a' <= c <= 'z' then (c as int - 32) as char else c
  }

  function Upper(s: string): (r: string)
    ensures |r| == |s|
    ensures forall i :: 0 <= i < |s| ==> r[i] == UpperChar(s[i])
  {
    if s == [] then [] else [UpperChar(s[0])] + Upper(s[1..])
  }

  /** Upper-casing leaves `s` as it is. */
  predicate AllUpper(s: string) {
    forall i :: 0 <= i < |s| ==> UpperChar(s[i]) == s[i]
  }

  lemma UpperIsUpper(s: string)
    ensures AllUpper(Upper(s))
  {
    forall i | 0 <= i < |s| ensures UpperChar(Upper(s)[i]) == Upper(s)[i] {
      var c := s[i];
      assert Upper(s)[i] == UpperChar(c);
    }
  }

  lemma {:induction false} UpperOfUpper(s: string)
    requires AllUpper(s)
    ensures Upper(s) == s
  {
    if s != [] {
      assert AllUpper(s[1..]) by {
        forall i | 0 <= i < |s[1..]| ensures UpperChar(s[1..][i]) == s[1..][i] {
          assert s[1..][i] == s[i + 1];
        }
      }
      UpperOfUpper(s[1..]);
      assert s == [s[0]] + s[1..];
    }
  }

  function LowerChar(c: char): char {
    if 'A' <= c <= 'Z' then (c as int + 32) as char else c
  }

  function Lower(s: string): (r: string)
    ensures |r| == |s|
    ensures forall i :: 0 <= i < |s| ==> r[i] == LowerChar(s[i])
  {
    if s == [] then [] else [LowerChar(s[0])] + Lower(s[1..])
  }

  /** The characters Python's `str.isspace` accepts within the ASCII range. */
  predicate IsSpace(c: char) {
    c == ' ' || c == '\t' || c == '\n' || c == '\r' || c == '\U{B}' || c == '\U{C}'
    || ('\U{1C}' <= c <= '\U{1F}')
  }

  function StripLeft(s: string): (r: string)
    ensures |r| <= |s| && r == s[|s| - |r|..]
    ensures r == [] || !IsSpace(r[0])
  {
    if s != [] && IsSpace(s[0]) then StripLeft(s[1..]) else s
  }

  function StripRight(s: string): (r: string)
    ensures |r| <= |s| && r == s[..|r|]
    ensures r == [] || !IsSpace(r[|r| - 1])
  {
    if s != [] && IsSpace(s[|s| - 1]) then StripRight(s[..|s| - 1]) else s
  }

  function Strip(s: string): (r: string)
    ensures |r| <= |s|
    ensures r == [] || (!IsSpace(r[0]) && !IsSpace(r[|r| - 1]))
  {
    StripRight(StripLeft(s))
  }

  predicate IsAlnumChar(c: char) {
    ('a' <= c <= 'z') || ('A' <= c <= 'Z') || ('0' <= c <= '9')
  }

  /** Python's `isalnum`: non-empty and every character alphanumeric. */
  predicate IsAlnum(s: string) {
    |s| > 0 && forall i :: 0 <= i < |s| ==> IsAlnumChar(s[i])
  }

  function RemoveChar(s: string, c: char): (r: string)
    ensures |r| <= |s|
    ensures forall i :: 0 <= i < |r| ==> r[i] != c
    ensures forall x :: x in r <==> x in s && x != c
  {
    if s == [] then [] else (if s[0] == c then [] else [s[0]]) + RemoveChar(s[1..], c)
  }
}

/** Instants are whole seconds since an epoch placed at a midnight in US Eastern time. */
module Clock {
  type Instant = int

  const SecondsPerDay: int := 86400

  /** A time of day, in seconds since midnight. */
  type TimeOfDay = t: int | 0 <= t < 86400

  function DayOf(t: Instant): int { t / SecondsPerDay }

  function TimeOf(t: Instant): TimeOfDay { t % SecondsPerDay }

  function At(day: int, tod: TimeOfDay): Instant { day * SecondsPerDay + tod }

  /** An instant is its day and its time of day, and both are recovered from it. */
  lemma AtParts(day: int, tod: TimeOfDay)
    ensures DayOf(At(day, tod)) == day && TimeOf(At(day, tod)) == tod
  {
    var t := At(day, tod);
    assert t == day * SecondsPerDay + tod;
    assert t / SecondsPerDay == day && t % SecondsPerDay == tod by {
      DivModUnique(t, SecondsPerDay, day, tod);
    }
  }

  lemma DivModUnique(x: int, k: int, q: int, r: int)
    requires k > 0 && 0 <= r < k && x == q * k + r
    ensures x / k == q && x % k == r
  {
    var q0, r0 := x / k, x % k;
    assert x == q0 * k + r0;
    if q > q0 {
      assert (q - q0) * k == r0 - r;
      MulAtLeast(q - q0, k);
    } else if q < q0 {
      assert (q0 - q) * k == r - r0;
      MulAtLeast(q0 - q, k);
    }
  }

  lemma MulAtLeast(a: int, k: int)
    requires a >= 1 && k > 0
    ensures a * k >= k
  {
    assert (a - 1) * k >= 0;
  }

  /** Clock time in whole minutes since midnight, `hour * 60 + minute`. */
  function MinuteOf(tod: TimeOfDay): int { tod / 60 }

  function Hm(h: int, m: int): TimeOfDay
    requires 0 <= h < 24 && 0 <= m < 60
  {
    h * 3600 + m * 60
  }
}

/** One OHLCV row of a bar table (a pandas DataFrame row with a timestamp column). */
module Candles {
  import opened Clock

  datatype Candle = Candle(time: Instant, open: real, high: real, low: real, close: real, volume: real)
  {
    /** The typical price `(high + low + close) / 3`. */
    function Typical(): real { (high + low + close) / 3.0 }
  }

  function Closes(cs: seq<Candle>): (r: seq<real>)
    ensures |r| == |cs| && forall i :: 0 <= i < |cs| ==> r[i] == cs[i].close
  {
    if cs == [] then [] else [cs[0].close] + Closes(cs[1..])
  }
}
