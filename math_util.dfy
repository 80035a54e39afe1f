/** Risk/reward, risk-based position sizing and percentage change (src/tbot/utils/math.py). */
module MathUtil {
  import opened Num

  /** Reward-to-risk multiple `R`; zero when entry and stop coincide. */
  function CalculateR(entry: real, stopLoss: real, target: real): (r: real)
    ensures r >= 0.0
    ensures entry == stopLoss ==> r == 0.0
    ensures entry != stopLoss ==> r * Abs(entry - stopLoss) == Abs(target - entry)
  {
    var risk := Abs(entry - stopLoss);
    if risk == 0.0 then 0.0 else Abs(target - entry) / risk
  }

  /** Whole shares whose stop-out loss fits in `accountValue * riskPct`. */
  function PositionSize(accountValue: real, riskPct: real, entryPrice: real, stopLoss: real): (r: int)
    ensures r >= 0
    ensures entryPrice == stopLoss ==> r == 0
    ensures r > 0 ==> r as real * Abs(entryPrice - stopLoss) <= accountValue * riskPct
    ensures entryPrice != stopLoss && accountValue * riskPct >= 0.0 ==>
      accountValue * riskPct < (r + 1) as real * Abs(entryPrice - stopLoss)
    ensures accountValue * riskPct < 0.0 ==> r == 0
  {
    var riskAmount := accountValue * riskPct;
    var riskPerShare := Abs(entryPrice - stopLoss);
    if riskPerShare == 0.0 then 0
    else
      var shares := Trunc(riskAmount / riskPerShare);
      QuotientBounds(riskAmount, riskPerShare, shares);
      if shares >= 0 then shares else 0
  }

  /** Scaling the truncation bounds of `a / b` back by `b`. */
  lemma QuotientBounds(a: real, b: real, n: int)
    requires b > 0.0
    ensures n as real <= a / b ==> n as real * b <= a
    ensures a / b < (n + 1) as real ==> a < (n + 1) as real * b
  {
    assert (a / b) * b == a;
    if n as real <= a / b {
      assert n as real * b <= (a / b) * b;
    }
    if a / b < (n + 1) as real {
      assert (a / b) * b < (n + 1) as real * b;
    }
  }

  /** Relative change from `previous` to `current`; zero when `previous` is zero. */
  function PctChange(current: real, previous: real): (r: real)
    ensures previous == 0.0 ==> r == 0.0
    ensures previous != 0.0 ==> previous * (1.0 + r) == current
  {
    if previous == 0.0 then 0.0 else (current - previous) / previous
  }

  /** A larger risk budget never yields fewer shares. */
  lemma PositionSizeMonotone(a1: real, a2: real, riskPct: real, entryPrice: real, stopLoss: real)
    requires a1 <= a2 && riskPct >= 0.0
    ensures PositionSize(a1, riskPct, entryPrice, stopLoss) <= PositionSize(a2, riskPct, entryPrice, stopLoss)
  {
    var rps := Abs(entryPrice - stopLoss);
    var r1 := PositionSize(a1, riskPct, entryPrice, stopLoss);
    var r2 := PositionSize(a2, riskPct, entryPrice, stopLoss);
    if rps != 0.0 && r1 > 0 {
      var b1, b2 := a1 * riskPct, a2 * riskPct;
      ScaleMonotone(a1, a2, riskPct);
      assert r1 as real * rps <= b1;
      assert b2 >= 0.0 ==> b2 < (r2 + 1) as real * rps;
      SizeOrder(b1, b2, rps, r1, r2);
    }
  }

  lemma SizeOrder(b1: real, b2: real, rps: real, r1: int, r2: int)
    requires rps > 0.0 && b1 <= b2 && r1 > 0
    requires r1 as real * rps <= b1
    requires b2 >= 0.0 ==> b2 < (r2 + 1) as real * rps
    ensures r1 <= r2
  {
    PositiveProduct(r1 as real, rps);
    CancelFactor(r1 as real, (r2 + 1) as real, rps);
  }

  lemma CancelFactor(x: real, y: real, c: real)
    requires c > 0.0 && x * c < y * c
    ensures x < y
  {
  }

  lemma ScaleMonotone(x: real, y: real, k: real)
    requires x <= y && k >= 0.0
    ensures x * k <= y * k
  {
    assert (y - x) * k >= 0.0;
  }

  lemma PositiveProduct(x: real, y: real)
    requires x > 0.0 && y > 0.0
    ensures x * y > 0.0
  {
  }
}
