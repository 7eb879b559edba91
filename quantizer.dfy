/**
 * Snapping of source times to the target grid and the laser speed derived
 * from a beat length. Source times are milliseconds; quantized times are
 * beats, snapped down to a binary subdivision of at most an eighth.
 */
module Quantizer {
  import opened Common

  /** The largest power of two not above `maxDenum`, capped at 8 (1 when below 2). */
  function Denominator(maxDenum: UInt8): (d: nat)
    ensures d == 1 || d == 2 || d == 4 || d == 8
    ensures d <= 8 && (d == 1 || d <= maxDenum)
    ensures d < 8 ==> maxDenum < 2 * d
  {
    if maxDenum >= 8 then 8 else if maxDenum >= 4 then 4 else if maxDenum >= 2 then 2 else 1
  }

  /** `x` snapped down to a multiple of 1/d. */
  function SnapDown(x: real, d: nat): real
    requires d >= 1
  {
    (x * d as real).Floor as real / d as real
  }

  /** The quantized beat position of `ts` milliseconds for a beat of `period` milliseconds. */
  function Quantized(ts: real, period: real, maxDenum: UInt8): real
  {
    if ts == 0.0 || period == 0.0 then 0.0
    else SnapDown(Abs(ts / period), Denominator(maxDenum))
  }

  lemma FloorIs(v: real, n: int)
    requires n as real <= v < n as real + 1.0
    ensures v.Floor == n
  {
  }

  lemma FloorAtLeast(v: real, n: int)
    requires n as real <= v
    ensures n <= v.Floor
  {
  }

  lemma MulLe(a: real, b: real, c: real)
    requires a <= b && c >= 0.0
    ensures a * c <= b * c
  {
  }

  lemma MulLt(a: real, b: real, c: real)
    requires a < b && c > 0.0
    ensures a * c < b * c
  {
  }

  lemma DivLe(a: real, b: real, c: real)
    requires c > 0.0
    ensures a / c <= b / c <==> a <= b
  {
    assert a / c * c == a && b / c * c == b;
    if a / c <= b / c {
      MulLe(a / c, b / c, c);
    }
    if a <= b {
      MulLe(a, b, 1.0 / c);
      assert a / c == a * (1.0 / c) && b / c == b * (1.0 / c);
    }
  }

  lemma SnapDoubleAt(x: real, k: real)
    requires k == 1.0 || k == 2.0 || k == 4.0
    ensures var m := (x * k).Floor;
      (x * (2.0 * k)).Floor as real / (2.0 * k) ==
      m as real / k + (if x - m as real / k >= 1.0 / (2.0 * k) then 1.0 / (2.0 * k) else 0.0)
  {
    var m := (x * k).Floor;
    if x - m as real / k >= 1.0 / (2.0 * k) {
      FloorIs(x * (2.0 * k), 2 * m + 1);
    } else {
      FloorIs(x * (2.0 * k), 2 * m);
    }
  }

  /** Doubling the denominator adds half a step exactly when the remainder reaches it. */
  lemma {:induction false} SnapDouble(x: real, k: nat)
    requires k == 1 || k == 2 || k == 4
    ensures SnapDown(x, 2 * k) ==
      SnapDown(x, k) + (if x - SnapDown(x, k) >= 1.0 / (2 * k) as real then 1.0 / (2 * k) as real else 0.0)
  {
    SnapDoubleAt(x, k as real);
    assert (2 * k) as real == 2.0 * k as real;
  }

  /** Once the remainder is below an eighth, finer denominators up to 8 change nothing. */
  lemma {:induction false} SnapSettled(x: real, k: nat, d: nat)
    requires 1 <= k <= d <= 8
    requires (k == 1 || k == 2 || k == 4 || k == 8) && (d == 1 || d == 2 || d == 4 || d == 8)
    requires x - SnapDown(x, k) < 0.125
    ensures SnapDown(x, d) == SnapDown(x, k)
    decreases d - k
  {
    if k < d {
      SnapDouble(x, k);
      assert 1.0 / (2 * k) as real >= 0.125;
      SnapSettled(x, 2 * k, d);
    }
  }

  /**
   * Greedy binary snapping: the whole beats, then a half, a quarter and an eighth
   * while the remainder allows and the denominator limit is not passed.
   */
  method QuantizeTimestamp(ts: real, period: real, maxDenum: UInt8) returns (r: real)
    ensures r == Quantized(ts, period, maxDenum)
  {
    if ts == 0.0 || period == 0.0 {
      return 0.0;
    }
    var x := Abs(ts / period);
    var whole := x.Floor as real;
    var frac := x - whole;
    assert whole == SnapDown(x, 1);
    var i: nat := 2;
    var settled := false;
    while i <= maxDenum
      invariant i == 2 || i == 4 || i == 8
      invariant i / 2 <= Denominator(maxDenum)
      invariant whole == SnapDown(x, i / 2) && frac == x - whole
      invariant 0.0 <= frac < 2.0 / i as real
      decreases maxDenum - i
    {
      var div := 1.0 / i as real;
      SnapDouble(x, i / 2);
      assert (2 * (i / 2)) == i;
      if frac >= div {
        frac := frac - div;
        whole := whole + div;
      }
      if frac < 0.125 {
        SnapSettled(x, i, Denominator(maxDenum));
        settled := true;
        break;
      }
      i := 2 * i;
    }
    if !settled {
      assert i / 2 == Denominator(maxDenum);
    }
    r := whole;
  }

  /** The quantized value lies between the whole beats and the exact beat position. */
  lemma {:induction false} QuantizedBounds(ts: real, period: real, maxDenum: UInt8)
    requires ts != 0.0 && period != 0.0
    ensures var x := Abs(ts / period);
      && x.Floor as real <= Quantized(ts, period, maxDenum) <= x
      && x - Quantized(ts, period, maxDenum) < 1.0 / Denominator(maxDenum) as real
  {
    var x := Abs(ts / period);
    var d := Denominator(maxDenum);
    SnapBounds(x, d);
  }

  lemma SnapBounds(x: real, d: nat)
    requires d == 1 || d == 2 || d == 4 || d == 8
    ensures x.Floor as real <= SnapDown(x, d) <= x
    ensures x - SnapDown(x, d) < 1.0 / d as real
  {
    var f := x.Floor;
    assert (f * d) as real <= x * d as real;
    FloorAtLeast(x * d as real, f * d);
  }

  /** A later non-negative time never quantizes to an earlier beat. */
  lemma {:induction false} QuantizedMonotone(t1: real, t2: real, period: real, maxDenum: UInt8)
    requires 0.0 <= t1 <= t2 && period > 0.0
    ensures Quantized(t1, period, maxDenum) <= Quantized(t2, period, maxDenum)
  {
    if t1 != 0.0 {
      DivLe(t1, t2, period);
      DivLe(0.0, t1, period);
      assert Abs(t1 / period) == t1 / period && Abs(t2 / period) == t2 / period;
      SnapDownMonotone(t1 / period, t2 / period, Denominator(maxDenum));
    }
  }

  lemma SnapDownMonotone(x1: real, x2: real, d: nat)
    requires x1 <= x2 && (d == 1 || d == 2 || d == 4 || d == 8)
    ensures SnapDown(x1, d) <= SnapDown(x2, d)
  {
    if d == 1 {
      FloorMonotone(x1 * 1.0, x2 * 1.0);
    } else if d == 2 {
      FloorMonotone(x1 * 2.0, x2 * 2.0);
    } else if d == 4 {
      FloorMonotone(x1 * 4.0, x2 * 4.0);
    } else {
      FloorMonotone(x1 * 8.0, x2 * 8.0);
    }
  }

  lemma FloorMonotone(a: real, b: real)
    requires a <= b
    ensures a.Floor <= b.Floor
  {
    FloorAtLeast(b, a.Floor);
  }

  /** Quantized times are never negative. */
  lemma {:induction false} QuantizedNonNegative(ts: real, period: real, maxDenum: UInt8)
    ensures Quantized(ts, period, maxDenum) >= 0.0
  {
    if ts != 0.0 && period != 0.0 {
      QuantizedBounds(ts, period, maxDenum);
    }
  }

  /**
   * The laser speed for a beat length: 1400 / |delta| clamped to 1..7 and
   * floored; a zero beat length divides to infinity and gives the top speed.
   */
  function SpeedByPeriod(delta: real): (r: int)
    ensures 1 <= r <= 7
    ensures delta == 0.0 ==> r == 7
    ensures delta != 0.0 ==> (r == 1 || r as real <= 1400.0 / Abs(delta))
    ensures delta != 0.0 ==> (r == 7 || 1400.0 / Abs(delta) < (r + 1) as real)
  {
    if delta == 0.0 then 7
    else
      var q := 1400.0 / Abs(delta);
      if q >= 7.0 then 7 else if q <= 1.0 then 1 else q.Floor
  }

  /** A longer beat never gives a faster laser. */
  lemma {:induction false} SpeedByPeriodAntitone(d1: real, d2: real)
    requires 0.0 < Abs(d1) <= Abs(d2)
    ensures SpeedByPeriod(d2) <= SpeedByPeriod(d1)
  {
    DivAntitone(1400.0, Abs(d1), Abs(d2));
  }

  lemma DivAntitone(c: real, a1: real, a2: real)
    requires c >= 0.0 && 0.0 < a1 <= a2
    ensures c / a2 <= c / a1
  {
    MulLe(a1, a2, c / a2);
    assert c / a2 * a2 == c;
    assert c / a1 * a1 == c;
    if c / a2 > c / a1 {
      MulLt(c / a1, c / a2, a1);
      assert false;
    }
  }
}
