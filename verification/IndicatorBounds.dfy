/** Ranges the indicators keep in exact arithmetic, on every series of well-formed candles. */
module IndicatorBounds {
  import opened Numerics
  import opened Indicators
  import opened Adx

  predicate Within(xs: seq<real>, lo: real, hi: real) {
    forall i :: 0 <= i < |xs| ==> lo <= xs[i] <= hi
  }

  // ---- means and smoothing

  lemma {:induction false} TotalWithin(xs: seq<real>, lo: real, hi: real)
    requires Within(xs, lo, hi)
    ensures lo * |xs| as real <= Total(xs) <= hi * |xs| as real
  {
    if xs != [] {
      var n := |xs| as real;
      TotalWithin(xs[..|xs| - 1], lo, hi);
      assert lo * n == lo * (n - 1.0) + lo && hi * n == hi * (n - 1.0) + hi;
    }
  }

  lemma {:induction false} ScaleMonotone(a: real, b: real, k: real)
    requires a <= b && k >= 0.0
    ensures a * k <= b * k
  {
    var gap := b - a;
    assert gap * k >= 0.0;
    assert gap * k == b * k - a * k;
  }

  lemma {:induction false} UnscaleMonotone(a: real, b: real, d: real)
    requires d > 0.0 && a * d <= b * d
    ensures a <= b
  {
  }

  lemma {:induction false} QuotientWithin(x: real, d: real, lo: real, hi: real)
    requires d > 0.0 && lo * d <= x <= hi * d
    ensures lo <= x / d <= hi
  {
    var q := x / d;
    assert q * d == x;
    UnscaleMonotone(lo, q, d);
    UnscaleMonotone(q, hi, d);
  }

  lemma {:induction false} MeanWithin(xs: seq<real>, lo: real, hi: real)
    requires xs != [] && Within(xs, lo, hi)
    ensures lo <= Mean(Exact, xs) <= hi
  {
    TotalWithin(xs, lo, hi);
    QuotientWithin(Total(xs), |xs| as real, lo, hi);
  }

  lemma {:induction false} OneMoreShare(x: real, k: real)
    ensures x * (k + 1.0) == x * k + x
  {
  }

  lemma {:induction false} WilderWithin(avg: real, period: nat, x: real, lo: real, hi: real)
    requires period >= 1 && lo <= avg <= hi && lo <= x <= hi
    ensures lo <= Wilder(Exact, avg, period, x) <= hi
  {
    var k := (period as int - 1) as real;
    assert period as real == k + 1.0;
    ScaleMonotone(lo, avg, k);
    ScaleMonotone(avg, hi, k);
    OneMoreShare(lo, k);
    OneMoreShare(hi, k);
    QuotientWithin(avg * k + x, k + 1.0, lo, hi);
  }

  lemma {:induction false} QuotientMonotone(x: real, y: real, d: real)
    requires d > 0.0 && x <= y
    ensures x / d <= y / d
  {
    var u, v := x / d, y / d;
    assert u * d == x;
    assert v * d == y;
    UnscaleMonotone(u, v, d);
  }

  /** Wilder smoothing keeps an order between two series. */
  lemma {:induction false} WilderMonotone(a: real, b: real, period: nat, x: real, y: real)
    requires period >= 1 && a <= b && x <= y
    ensures Wilder(Exact, a, period, x) <= Wilder(Exact, b, period, y)
  {
    var k := (period as int - 1) as real;
    ScaleMonotone(a, b, k);
    QuotientMonotone(a * k + x, b * k + y, period as real);
  }

  // ---- EMA

  lemma {:induction false} Shares(x: real, a: real, b: real)
    requires a + b == 1.0
    ensures x * a + x * b == x
  {
    assert x * (a + b) == x * a + x * b;
  }

  lemma {:induction false} WeightedBelow(a: real, b: real, x: real, y: real, hi: real)
    requires a >= 0.0 && b >= 0.0 && a + b == 1.0 && x <= hi && y <= hi
    ensures a * x + b * y <= hi
  {
    var p, q, r, s := x * a, y * b, hi * a, hi * b;
    assert p <= r by {
      ScaleMonotone(x, hi, a);
    }
    assert q <= s by {
      ScaleMonotone(y, hi, b);
    }
    assert r + s == hi by {
      Shares(hi, a, b);
    }
    assert p + q <= hi;
  }

  /** A weighted mean stays between its bounds. */
  lemma {:induction false} Blend(a: real, b: real, x: real, y: real, lo: real, hi: real)
    requires a >= 0.0 && b >= 0.0 && a + b == 1.0 && lo <= x <= hi && lo <= y <= hi
    ensures lo <= a * x + b * y <= hi
  {
    WeightedBelow(a, b, x, y, hi);
    WeightedBelow(a, b, -x, -y, -lo);
    assert a * -x == -(a * x) && b * -y == -(b * y);
  }

  lemma {:induction false} EmaStepWithin(period: nat, x: real, prev: real, lo: real, hi: real)
    requires period >= 1 && lo <= x <= hi && lo <= prev <= hi
    ensures
      var alpha := 2.0 / (period + 1) as real;
      lo <= alpha * x + (1.0 - alpha) * prev <= hi
  {
    var alpha := 2.0 / (period + 1) as real;
    QuotientWithin(2.0, (period + 1) as real, 0.0, 1.0);
    Blend(alpha, 1.0 - alpha, x, prev, lo, hi);
  }

  lemma {:induction false} NextEma(values: seq<real>, period: nat, i: nat, lo: real, hi: real)
    requires 1 <= period < i + 1 <= |values| && lo <= values[i] <= hi
    requires EmaAt(Exact, values, period, i - 1).Some? && lo <= EmaAt(Exact, values, period, i - 1).value <= hi
    ensures EmaAt(Exact, values, period, i).Some? && lo <= EmaAt(Exact, values, period, i).value <= hi
  {
    EmaStepWithin(period, values[i], EmaAt(Exact, values, period, i - 1).value, lo, hi);
  }

  lemma {:induction false} FirstEma(values: seq<real>, period: nat, lo: real, hi: real)
    requires 1 <= period <= |values| && Within(values[..period], lo, hi)
    ensures
      EmaAt(Exact, values, period, period - 1).Some? && lo <= EmaAt(Exact, values, period, period - 1).value <= hi
  {
    MeanWithin(values[..period], lo, hi);
  }

  lemma {:induction false} EmaDefinedWithin(values: seq<real>, period: nat, i: nat, lo: real, hi: real)
    requires 1 <= period <= i + 1 <= |values| && Within(values[..i + 1], lo, hi)
    ensures EmaAt(Exact, values, period, i).Some? && lo <= EmaAt(Exact, values, period, i).value <= hi
  {
    hide EmaAt;
    if i + 1 == period {
      FirstEma(values, period, lo, hi);
    } else {
      assert values[..i] == values[..i + 1][..i];
      assert values[i] == values[..i + 1][i];
      EmaDefinedWithin(values, period, i - 1, lo, hi);
      NextEma(values, period, i, lo, hi);
    }
  }

  /** The EMA is defined from index `period - 1` on, and never leaves the range of the values seen so far. */
  lemma {:induction false} EmaWithinRange(values: seq<real>, period: nat, i: nat, lo: real, hi: real)
    requires period >= 1 && i < |values| && Within(values[..i + 1], lo, hi)
    ensures EmaAt(Exact, values, period, i).Some? <==> i + 1 >= period
    ensures EmaAt(Exact, values, period, i).Some? ==> lo <= EmaAt(Exact, values, period, i).value <= hi
  {
    if i + 1 >= period {
      EmaDefinedWithin(values, period, i, lo, hi);
    }
  }

  // ---- RSI

  lemma {:induction false} ChangesNonNegative(values: seq<real>, n: nat)
    requires n < |values|
    ensures forall k :: 0 <= k < n ==> Gains(Exact, values, n)[k] >= 0.0 && Losses(Exact, values, n)[k] >= 0.0
  {
    if n > 0 {
      ChangesNonNegative(values, n - 1);
    }
  }

  lemma {:induction false} NonNegativeMean(xs: seq<real>, period: nat)
    requires period >= 1 && |xs| == period && forall k :: 0 <= k < period ==> xs[k] >= 0.0
    ensures Total(xs) / period as real >= 0.0
  {
    NonNegativeTotal(xs);
    var mean := Total(xs) / period as real;
    assert mean * period as real == Total(xs);
    UnscaleMonotone(0.0, mean, period as real);
  }

  lemma {:induction false} NonNegativeTotal(xs: seq<real>)
    requires forall k :: 0 <= k < |xs| ==> xs[k] >= 0.0
    ensures Total(xs) >= 0.0
  {
    if xs != [] {
      NonNegativeTotal(xs[..|xs| - 1]);
    }
  }

  lemma {:induction false} WilderNonNegative(avg: real, period: nat, x: real)
    requires period >= 1 && avg >= 0.0 && x >= 0.0
    ensures Wilder(Exact, avg, period, x) >= 0.0
  {
    WilderMonotone(0.0, avg, period, 0.0, x);
  }

  lemma {:induction false} AveragesNonNegative(values: seq<real>, period: nat, i: nat)
    requires 1 <= period <= i < |values|
    ensures AvgGain(Exact, values, period, i) >= 0.0 && AvgLoss(Exact, values, period, i) >= 0.0
  {
    if i == period {
      ChangesNonNegative(values, period);
      NonNegativeMean(Gains(Exact, values, period), period);
      NonNegativeMean(Losses(Exact, values, period), period);
    } else {
      AveragesNonNegative(values, period, i - 1);
      WilderNonNegative(AvgGain(Exact, values, period, i - 1), period, Gain(Exact, values[i - 1], values[i]));
      WilderNonNegative(AvgLoss(Exact, values, period, i - 1), period, Loss(Exact, values[i - 1], values[i]));
    }
  }

  lemma {:induction false} RsiValueWithin(g: real, l: real)
    requires g >= 0.0 && l >= 0.0
    ensures 0.0 <= RsiValue(Exact, g, l) <= 100.0
    ensures RsiValue(Exact, g, l) == 100.0 <==> l == 0.0 && g > 0.0
    ensures RsiValue(Exact, g, l) == 0.0 <==> l > 0.0 && g == 0.0
  {
    if l > 0.0 {
      var rs := g / l;
      assert rs * l == g;
      assert rs >= 0.0 && (rs == 0.0 <==> g == 0.0);
      var part := 100.0 / (1.0 + rs);
      assert part * (1.0 + rs) == 100.0;
      assert part > 0.0;
      assert part * rs >= 0.0;
      assert part == 100.0 - part * rs;
      assert part == 100.0 <==> rs == 0.0;
    }
  }

  /** RSI is a percentage, defined exactly from index `period` on, and reaches 100 (or 0) only when the smoothed
      losses (or gains) are nil. */
  lemma {:induction false} RsiIsPercentage(values: seq<real>, period: nat, i: nat)
    requires period >= 1 && i < |values|
    ensures RsiAt(Exact, values, period, i).Some? <==> i >= period
    ensures i >= period ==>
      var r := RsiAt(Exact, values, period, i).value;
      && 0.0 <= r <= 100.0
      && (r == 100.0 <==> AvgLoss(Exact, values, period, i) == 0.0 && AvgGain(Exact, values, period, i) > 0.0)
      && (r == 0.0 <==> AvgGain(Exact, values, period, i) == 0.0 && AvgLoss(Exact, values, period, i) > 0.0)
  {
    if i >= period {
      AveragesNonNegative(values, period, i);
      RsiValueWithin(AvgGain(Exact, values, period, i), AvgLoss(Exact, values, period, i));
    }
  }

  // ---- directional index

  predicate AllWellFormed(candles: seq<Candle>) {
    forall i :: 0 <= i < |candles| ==> WellFormed(candles[i])
  }

  /** One step's directional movement, up or down, never exceeds its true range; at most one of the two is nonzero. */
  lemma {:induction false} MoveWithinRange(candles: seq<Candle>, i: nat)
    requires 1 <= i < |candles| && AllWellFormed(candles)
    ensures
      var m := MoveInto(Exact, candles, i);
      m.plus >= 0.0 && m.minus >= 0.0 && m.plus + m.minus <= m.range && (m.plus == 0.0 || m.minus == 0.0)
  {
    assert WellFormed(candles[i - 1]) && WellFormed(candles[i]);
  }

  predicate Ordered(s: Move) {
    s.plus >= 0.0 && s.minus >= 0.0 && s.plus + s.minus <= s.range
  }

  lemma {:induction false} TotalsOrdered(candles: seq<Candle>, n: nat)
    requires n < |candles| && AllWellFormed(candles)
    ensures
      Ordered(Move(Total(TrueRanges(Exact, candles, n)), Total(PlusMoves(Exact, candles, n)),
                   Total(MinusMoves(Exact, candles, n))))
  {
    if n > 0 {
      TotalsOrdered(candles, n - 1);
      MoveWithinRange(candles, n);
      var r, p, m := TrueRanges(Exact, candles, n), PlusMoves(Exact, candles, n), MinusMoves(Exact, candles, n);
      assert r[..n - 1] == TrueRanges(Exact, candles, n - 1);
      assert p[..n - 1] == PlusMoves(Exact, candles, n - 1);
      assert m[..n - 1] == MinusMoves(Exact, candles, n - 1);
    }
  }

  lemma {:induction false} SeedOrdered(candles: seq<Candle>, period: nat)
    requires 1 <= period < |candles| && AllWellFormed(candles)
    ensures Ordered(Seed(Exact, candles, period))
  {
    TotalsOrdered(candles, period);
    var n := period as real;
    var r := Total(TrueRanges(Exact, candles, period));
    var p, m := Total(PlusMoves(Exact, candles, period)), Total(MinusMoves(Exact, candles, period));
    ScaledOrder(r, p, m, n);
  }

  lemma {:induction false} ScaledOrder(r: real, p: real, m: real, n: real)
    requires n > 0.0 && p >= 0.0 && m >= 0.0 && p + m <= r
    ensures p / n >= 0.0 && m / n >= 0.0 && p / n + m / n <= r / n
  {
    assert p / n + m / n == (p + m) / n;
    var rest := r - p - m;
    assert rest / n >= 0.0;
    assert r / n == (p + m) / n + rest / n;
  }

  lemma {:induction false} SmoothOrdered(s: Move, period: nat, m: Move)
    requires period >= 1 && Ordered(s) && Ordered(m)
    ensures Ordered(Smooth(Exact, s, period, m))
  {
    var k, n := (period as int - 1) as real, period as real;
    assert (s.plus + s.minus) * k <= s.range * k;
    assert s.plus * k >= 0.0 && s.minus * k >= 0.0;
    ScaledOrder(s.range * k + m.range, s.plus * k + m.plus, s.minus * k + m.minus, n);
  }

  lemma {:induction false} SmoothedOrdered(candles: seq<Candle>, period: nat, i: nat)
    requires 1 <= period <= i < |candles| && AllWellFormed(candles)
    ensures Ordered(Smoothed(Exact, candles, period, i))
  {
    if i == period {
      SeedOrdered(candles, period);
    } else {
      SmoothedOrdered(candles, period, i - 1);
      MoveWithinRange(candles, i);
      SmoothOrdered(Smoothed(Exact, candles, period, i - 1), period, MoveInto(Exact, candles, i));
    }
  }

  lemma {:induction false} DiWithin(s: Move)
    requires Ordered(s)
    ensures PlusDi(Exact, s) >= 0.0 && MinusDi(Exact, s) >= 0.0
    ensures PlusDi(Exact, s) + MinusDi(Exact, s) <= 100.0
    ensures 0.0 <= Dx(Exact, s) <= 100.0
  {
    var p, m := PlusDi(Exact, s), MinusDi(Exact, s);
    if s.range != 0.0 {
      ScaledOrder(100.0 * s.range, 100.0 * s.plus, 100.0 * s.minus, s.range);
      assert 100.0 * s.range / s.range == 100.0;
    }
    var sum, gap := p + m, Abs(p - m);
    if sum != 0.0 {
      QuotientWithin(100.0 * gap, sum, 0.0, 100.0);
    }
  }

  lemma {:induction false} DxSumWithin(candles: seq<Candle>, period: nat, n: nat)
    requires 1 <= period && period + n <= |candles| && AllWellFormed(candles)
    ensures 0.0 <= DxSum(Exact, candles, period, n) <= 100.0 * n as real
  {
    if n > 0 {
      DxSumWithin(candles, period, n - 1);
      SmoothedOrdered(candles, period, period + n - 1);
      DiWithin(Smoothed(Exact, candles, period, period + n - 1));
    }
  }

  /** On well-formed candles +DI and -DI are non-negative and together at most 100, DX and ADX are percentages, and the
      ADX is defined exactly from index `2 * period - 1` on. */
  lemma {:induction false} AdxIsPercentage(candles: seq<Candle>, period: nat, i: nat)
    requires period >= 1 && i < |candles| && AllWellFormed(candles)
    ensures AdxAt(Exact, candles, period, i).Some? <==> i + 1 >= 2 * period
    ensures AdxAt(Exact, candles, period, i).Some? ==> 0.0 <= AdxAt(Exact, candles, period, i).value <= 100.0
    ensures i >= period ==>
      var s := Smoothed(Exact, candles, period, i);
      && PlusDi(Exact, s) >= 0.0 && MinusDi(Exact, s) >= 0.0 && PlusDi(Exact, s) + MinusDi(Exact, s) <= 100.0
      && 0.0 <= DxAt(Exact, candles, period, i) <= 100.0
  {
    if i >= period {
      SmoothedOrdered(candles, period, i);
      DiWithin(Smoothed(Exact, candles, period, i));
    }
    if i + 1 == 2 * period {
      DxSumWithin(candles, period, period);
      QuotientWithin(DxSum(Exact, candles, period, period), period as real, 0.0, 100.0);
    } else if i + 1 > 2 * period {
      AdxIsPercentage(candles, period, i - 1);
      WilderWithin(AdxAt(Exact, candles, period, i - 1).value, period, DxAt(Exact, candles, period, i), 0.0, 100.0);
    }
  }
}
