/** The indicators by the equations they satisfy in exact arithmetic, free of the quotients they are computed with. */
module IndicatorMeaning {
  import opened Numerics
  import opened Indicators
  import opened Adx
  import opened Features

  // ---- sums and quotients

  /** `q` is `x` divided by `d`. */
  predicate Divides(q: real, x: real, d: real) {
    q * d == x
  }

  lemma {:induction false} DivideExactly(x: real, d: real)
    requires d != 0.0
    ensures Divides(Exact.Div(x, d), x, d)
  {
  }

  /** One step of Wilder's smoothing: the old value weighs one less than the period, the new one once. */
  predicate Smooths(next: real, prev: real, x: real, period: nat) {
    next * period as real == prev * (period as int - 1) as real + x
  }

  lemma {:induction false} WilderSmooths(avg: real, period: nat, x: real)
    requires period >= 1
    ensures Smooths(Wilder(Exact, avg, period, x), avg, x, period)
  {
    DivideExactly(avg * (period as int - 1) as real + x, period as real);
  }


  // ---- moving average

  /** The average of period `period` starts as the mean of the first values and then moves by `2 / (period + 1)` of the
      way to each new one. */
  lemma {:induction false} EmaMeans(values: seq<real>, period: nat, i: nat)
    requires period >= 1 && i < |values| && i + 1 >= period
    ensures EmaAt(Exact, values, period, i).Some?
    ensures i + 1 == period ==> Divides(EmaAt(Exact, values, period, i).value, Total(values[..period]), period as real)
    ensures i + 1 > period ==>
      && EmaAt(Exact, values, period, i - 1).Some?
      && var before, now := EmaAt(Exact, values, period, i - 1).value, EmaAt(Exact, values, period, i).value;
         Divides(now - before, 2.0 * (values[i] - before), (period + 1) as real)
  {
    if i + 1 == period {
      DivideExactly(Total(values[..period]), period as real);
    } else {
      EmaDefined(values, period, i - 1);
      var alpha, before := 2.0 / (period + 1) as real, EmaAt(Exact, values, period, i - 1).value;
      assert alpha * (period + 1) as real == 2.0;
      Moves(alpha, values[i], before, (period + 1) as real);
    }
  }

  lemma {:induction false} EmaDefined(values: seq<real>, period: nat, i: nat)
    requires period >= 1 && i < |values|
    ensures EmaAt(Exact, values, period, i).Some? <==> i + 1 >= period
  {
  }

  lemma {:induction false} Moves(alpha: real, x: real, before: real, d: real)
    requires alpha * d == 2.0
    ensures Divides(alpha * x + (1.0 - alpha) * before - before, 2.0 * (x - before), d)
  {
    var gap := x - before;
    assert alpha * x + (1.0 - alpha) * before - before == alpha * gap;
    assert (alpha * gap) * d == (alpha * d) * gap;
  }

  // ---- relative strength

  /** How far the value rose into index `k`, if it did. */
  function Rise(values: seq<real>, k: nat): real
    requires 1 <= k < |values|
  {
    if values[k] > values[k - 1] then values[k] - values[k - 1] else 0.0
  }

  function Fall(values: seq<real>, k: nat): real
    requires 1 <= k < |values|
  {
    if values[k] < values[k - 1] then values[k - 1] - values[k] else 0.0
  }

  lemma {:induction false} ChangesAre(values: seq<real>, n: nat)
    requires n < |values|
    ensures forall k :: 1 <= k <= n ==>
      Gains(Exact, values, n)[k - 1] == Rise(values, k) && Losses(Exact, values, n)[k - 1] == Fall(values, k)
  {
    if n > 0 {
      ChangesAre(values, n - 1);
    }
  }

  /** Average rise and fall start as the means of the first `period` steps and are smoothed with every step after. */
  lemma {:induction false} AveragesMean(values: seq<real>, period: nat, i: nat)
    requires 1 <= period <= i < |values|
    ensures i == period ==>
      && |Gains(Exact, values, period)| == |Losses(Exact, values, period)| == period
      && (forall k :: 1 <= k <= period ==>
            && Gains(Exact, values, period)[k - 1] == Rise(values, k)
            && Losses(Exact, values, period)[k - 1] == Fall(values, k))
      && Divides(AvgGain(Exact, values, period, i), Total(Gains(Exact, values, period)), period as real)
      && Divides(AvgLoss(Exact, values, period, i), Total(Losses(Exact, values, period)), period as real)
    ensures i > period ==>
      && Smooths(AvgGain(Exact, values, period, i), AvgGain(Exact, values, period, i - 1), Rise(values, i), period)
      && Smooths(AvgLoss(Exact, values, period, i), AvgLoss(Exact, values, period, i - 1), Fall(values, i), period)
  {
    if i == period {
      ChangesAre(values, period);
      DivideExactly(Total(Gains(Exact, values, period)), period as real);
      DivideExactly(Total(Losses(Exact, values, period)), period as real);
    } else {
      WilderSmooths(AvgGain(Exact, values, period, i - 1), period, Gain(Exact, values[i - 1], values[i]));
      WilderSmooths(AvgLoss(Exact, values, period, i - 1), period, Loss(Exact, values[i - 1], values[i]));
    }
  }

  /** The RSI is the share of the average rise in the sum of average rise and fall, in percent; fifty if none. */
  lemma {:induction false} RsiMeans(values: seq<real>, period: nat, i: nat)
    requires 1 <= period <= i < |values|
    ensures RsiAt(Exact, values, period, i).Some?
    ensures
      var up, down := AvgGain(Exact, values, period, i), AvgLoss(Exact, values, period, i);
      up >= 0.0 && down >= 0.0 ==>
        if up + down == 0.0 then RsiAt(Exact, values, period, i).value == 50.0
        else Divides(RsiAt(Exact, values, period, i).value, 100.0 * up, up + down)
  {
    hide AvgGain, AvgLoss;
    var up, down := AvgGain(Exact, values, period, i), AvgLoss(Exact, values, period, i);
    if up >= 0.0 && down > 0.0 {
      ShareOfRise(up, down);
    }
  }

  lemma {:induction false} ShareOfRise(up: real, down: real)
    requires up >= 0.0 && down > 0.0
    ensures Divides(RsiValue(Exact, up, down), 100.0 * up, up + down)
  {
    var rs := up / down;
    assert rs * down == up;
    var part := 100.0 / (1.0 + rs);
    assert rs >= 0.0;
    assert part * (1.0 + rs) == 100.0;
    assert (1.0 + rs) * down == down + up;
    assert part * (up + down) == (part * (1.0 + rs)) * down;
  }

  // ---- range and direction

  /** The true range of a candle reaches from the lowest to the highest of its low, its high and the close before. */
  lemma {:induction false} TrueRangeMeans(close: real, c: Candle)
    requires c.low <= c.high
    ensures TrueRange(Exact, close, c) == Max(c.high, close) - Min(c.low, close)
  {
  }

  lemma {:induction false} RangesAre(candles: seq<Candle>, n: nat)
    requires n < |candles|
    ensures forall k :: 1 <= k <= n ==>
      TrueRanges(Exact, candles, n)[k - 1] == TrueRange(Exact, candles[k - 1].close, candles[k])
  {
    if n > 0 {
      RangesAre(candles, n - 1);
    }
  }

  /** The ATR starts as the mean of the first `period` true ranges and is smoothed with every range after. */
  lemma {:induction false} AtrMeans(candles: seq<Candle>, period: nat, i: nat)
    requires period >= 1 && i < |candles|
    ensures AtrAt(Exact, candles, period, i).Some? <==> i >= period
    ensures i == period ==>
      Divides(AtrAt(Exact, candles, period, i).value, Total(TrueRanges(Exact, candles, period)), period as real)
    ensures i > period ==>
      && AtrAt(Exact, candles, period, i - 1).Some?
      && Smooths(AtrAt(Exact, candles, period, i).value, AtrAt(Exact, candles, period, i - 1).value,
                 TrueRange(Exact, candles[i - 1].close, candles[i]), period)
  {
    if i == period {
      DivideExactly(Total(TrueRanges(Exact, candles, period)), period as real);
    } else if i > period {
      var before := AtrAt(Exact, candles, period, i - 1).GetOr(0.0);
      WilderSmooths(before, period, TrueRange(Exact, candles[i - 1].close, candles[i]));
    }
  }

  /** A candle moves up by how much its high is above the last one if that is more than its low fell below the last, and
      down likewise; it does at most one of the two. */
  lemma {:induction false} DirectionMeans(prev: Candle, cur: Candle)
    ensures PlusMove(Exact, prev, cur) > 0.0 <==> cur.high > prev.high && cur.high + cur.low > prev.high + prev.low
    ensures PlusMove(Exact, prev, cur) > 0.0 ==> prev.high + PlusMove(Exact, prev, cur) == cur.high
    ensures MinusMove(Exact, prev, cur) > 0.0 <==> cur.low < prev.low && cur.high + cur.low < prev.high + prev.low
    ensures MinusMove(Exact, prev, cur) > 0.0 ==> prev.low - MinusMove(Exact, prev, cur) == cur.low
    ensures PlusMove(Exact, prev, cur) >= 0.0 && MinusMove(Exact, prev, cur) >= 0.0
  {
  }

  /** Range and moves are smoothed alike. */
  lemma {:induction false} SmoothedMeans(candles: seq<Candle>, period: nat, i: nat)
    requires 1 <= period <= i < |candles|
    ensures i == period ==>
      var s := Smoothed(Exact, candles, period, i);
      && Divides(s.range, Total(TrueRanges(Exact, candles, period)), period as real)
      && Divides(s.plus, Total(PlusMoves(Exact, candles, period)), period as real)
      && Divides(s.minus, Total(MinusMoves(Exact, candles, period)), period as real)
    ensures i > period ==>
      var s, before := Smoothed(Exact, candles, period, i), Smoothed(Exact, candles, period, i - 1);
      && Smooths(s.range, before.range, TrueRange(Exact, candles[i - 1].close, candles[i]), period)
      && Smooths(s.plus, before.plus, PlusMove(Exact, candles[i - 1], candles[i]), period)
      && Smooths(s.minus, before.minus, MinusMove(Exact, candles[i - 1], candles[i]), period)
  {
    if i == period {
      DivideExactly(Total(TrueRanges(Exact, candles, period)), period as real);
      DivideExactly(Total(PlusMoves(Exact, candles, period)), period as real);
      DivideExactly(Total(MinusMoves(Exact, candles, period)), period as real);
    } else {
      var before := Smoothed(Exact, candles, period, i - 1);
      WilderSmooths(before.range, period, TrueRange(Exact, candles[i - 1].close, candles[i]));
      WilderSmooths(before.plus, period, PlusMove(Exact, candles[i - 1], candles[i]));
      WilderSmooths(before.minus, period, MinusMove(Exact, candles[i - 1], candles[i]));
    }
  }

  /** DX is the share of the difference of the two moves in their sum, in percent: the range cancels out. */
  lemma {:induction false} DxMeans(s: Move)
    requires s.range > 0.0 && s.plus >= 0.0 && s.minus >= 0.0
    ensures Divides(PlusDi(Exact, s), 100.0 * s.plus, s.range) && Divides(MinusDi(Exact, s), 100.0 * s.minus, s.range)
    ensures
      if s.plus + s.minus == 0.0 then Dx(Exact, s) == 0.0
      else Divides(Dx(Exact, s), 100.0 * Abs(s.plus - s.minus), s.plus + s.minus)
  {
    var p, m := PlusDi(Exact, s), MinusDi(Exact, s);
    DivideExactly(100.0 * s.plus, s.range);
    DivideExactly(100.0 * s.minus, s.range);
    if s.plus + s.minus == 0.0 {
      assert p * s.range == 0.0 && m * s.range == 0.0;
      NoShare(p, s.range);
      NoShare(m, s.range);
    } else {
      RangeCancels(p, m, s);
    }
  }

  /** Without any range there is no direction either. */
  lemma {:induction false} NoRangeNoDx(s: Move)
    requires s.range == 0.0
    ensures PlusDi(Exact, s) == 0.0 && MinusDi(Exact, s) == 0.0 && Dx(Exact, s) == 0.0
  {
  }

  lemma {:induction false} NoShare(q: real, d: real)
    requires d > 0.0 && q * d == 0.0
    ensures q == 0.0
  {
  }

  lemma {:induction false} RangeCancels(p: real, m: real, s: Move)
    requires s.range > 0.0 && s.plus >= 0.0 && s.minus >= 0.0 && s.plus + s.minus > 0.0
    requires p == PlusDi(Exact, s) && m == MinusDi(Exact, s)
    requires Divides(p, 100.0 * s.plus, s.range) && Divides(m, 100.0 * s.minus, s.range)
    ensures Divides(Dx(Exact, s), 100.0 * Abs(s.plus - s.minus), s.plus + s.minus)
  {
    hide PlusDi, MinusDi, Dx;
    var sum, gap := p + m, Abs(p - m);
    assert sum * s.range == 100.0 * (s.plus + s.minus);
    assert (p - m) * s.range == 100.0 * (s.plus - s.minus);
    GapScales(p - m, s.range, 100.0 * (s.plus - s.minus));
    assert gap * s.range == 100.0 * Abs(s.plus - s.minus);
    NotNil(sum, s.range, s.plus + s.minus);
    DxOfSum(s, p, m);
    CancelRange(Dx(Exact, s), gap, sum, s.range, Abs(s.plus - s.minus), s.plus + s.minus);
  }

  lemma {:induction false} NotNil(sum: real, range: real, total: real)
    requires total > 0.0 && sum * range == 100.0 * total
    ensures sum != 0.0
  {
  }

  lemma {:induction false} DxOfSum(s: Move, p: real, m: real)
    requires p == PlusDi(Exact, s) && m == MinusDi(Exact, s) && p + m != 0.0
    ensures Divides(Dx(Exact, s), 100.0 * Abs(p - m), p + m)
  {
    hide PlusDi, MinusDi;
    DivideExactly(100.0 * Abs(p - m), p + m);
  }

  lemma {:induction false} GapScales(x: real, d: real, y: real)
    requires d > 0.0 && x * d == y
    ensures Abs(x) * d == Abs(y)
  {
    if x < 0.0 {
      assert (-x) * d > 0.0;
      assert (-x) * d == -y;
    } else {
      assert x * d >= 0.0;
    }
  }

  lemma {:induction false} CancelRange(dx: real, gap: real, sum: real, range: real, difference: real, total: real)
    requires dx * sum == 100.0 * gap && gap * range == 100.0 * difference && sum * range == 100.0 * total
    ensures dx * total == 100.0 * difference
  {
    assert dx * (sum * range) == (dx * sum) * range;
    assert dx * (100.0 * total) == 100.0 * (gap * range);
  }

  lemma {:induction false} DxSumIs(candles: seq<Candle>, period: nat, n: nat)
    requires 1 <= period && period + n <= |candles| && n > 0
    ensures
      DxSum(Exact, candles, period, n)
      == DxSum(Exact, candles, period, n - 1) + Dx(Exact, Smoothed(Exact, candles, period, period + n - 1))
    ensures DxSum(Exact, candles, period, 0) == 0.0
  {
  }

  /** The ADX starts as the mean of the first `period` DX values and is smoothed with every one after. */
  lemma {:induction false} AdxMeans(candles: seq<Candle>, period: nat, i: nat)
    requires period >= 1 && i < |candles|
    ensures AdxAt(Exact, candles, period, i).Some? <==> i + 1 >= 2 * period
    ensures i + 1 == 2 * period ==>
      Divides(AdxAt(Exact, candles, period, i).value, DxSum(Exact, candles, period, period), period as real)
    ensures i + 1 > 2 * period ==>
      && AdxAt(Exact, candles, period, i - 1).Some?
      && Smooths(AdxAt(Exact, candles, period, i).value, AdxAt(Exact, candles, period, i - 1).value,
                 Dx(Exact, Smoothed(Exact, candles, period, i)), period)
  {
    if i + 1 == 2 * period {
      DivideExactly(DxSum(Exact, candles, period, period), period as real);
    } else if i + 1 > 2 * period {
      var before := AdxAt(Exact, candles, period, i - 1).GetOr(0.0);
      WilderSmooths(before, period, DxAt(Exact, candles, period, i));
    }
  }

  // ---- growth and its spread

  /** A return is the growth over the close before, momentum that over the close `window` bars before; neither is there
      without a close other than zero to grow from. */
  lemma {:induction false} GrowthMeans(values: seq<real>, window: nat, i: nat)
    requires i < |values|
    ensures ReturnAt(Exact, values, i).Some? <==> i >= 1 && values[i - 1] != 0.0
    ensures ReturnAt(Exact, values, i).Some? ==>
      values[i] == values[i - 1] * (1.0 + ReturnAt(Exact, values, i).value)
    ensures MomentumAt(Exact, values, window, i).Some? <==> i >= window && values[i - window] != 0.0
    ensures MomentumAt(Exact, values, window, i).Some? ==>
      values[i] == values[i - window] * (1.0 + MomentumAt(Exact, values, window, i).value)
  {
    if i >= 1 && values[i - 1] != 0.0 {
      Grows(values[i - 1], values[i]);
    }
    if i >= window && values[i - window] != 0.0 {
      Grows(values[i - window], values[i]);
    }
  }

  lemma {:induction false} Grows(before: real, now: real)
    requires before != 0.0
    ensures now == before * (1.0 + (now - before) / before)
  {
    var growth := (now - before) / before;
    assert growth * before == now - before;
  }

  /** Squared distances from `mean`, added up. */
  function Spread(pw: Powers, xs: seq<real>, mean: real): real {
    if xs == [] then 0.0 else Spread(pw, xs[..|xs| - 1], mean) + pw.square(xs[|xs| - 1] - mean)
  }

  lemma {:induction false} DeviationsTotal(pw: Powers, xs: seq<real>, mean: real, n: nat)
    requires n <= |xs|
    ensures Total(Deviations(Exact, pw, xs, mean, n)) == Spread(pw, xs[..n], mean)
  {
    if n > 0 {
      DeviationsTotal(pw, xs, mean, n - 1);
      assert xs[..n][..n - 1] == xs[..n - 1];
      var d := Deviations(Exact, pw, xs, mean, n);
      assert d[..n - 1] == Deviations(Exact, pw, xs, mean, n - 1) by {
        DeviationsLength(pw, xs, mean, n - 1);
      }
      DeviationsLength(pw, xs, mean, n);
    }
  }

  lemma {:induction false} DeviationsLength(pw: Powers, xs: seq<real>, mean: real, n: nat)
    requires n <= |xs|
    ensures |Deviations(Exact, pw, xs, mean, n)| == n
  {
    if n > 0 {
      DeviationsLength(pw, xs, mean, n - 1);
    }
  }

  /** The volatility of at least two returns is the root of their variance: the squared distances from their mean, over
      one less than their number. */
  lemma {:induction false} VolatilityMeans(pw: Powers, xs: seq<real>)
    ensures Volatility(Exact, pw, xs).Some? <==> |xs| >= 2
    ensures |xs| >= 2 ==>
      exists mean, variance ::
        && Divides(mean, Total(xs), |xs| as real) && Divides(variance, Spread(pw, xs, mean), (|xs| - 1) as real)
        && Volatility(Exact, pw, xs).value == pw.root(variance)
  {
    if |xs| >= 2 {
      var mean := Total(xs) / |xs| as real;
      DivideExactly(Total(xs), |xs| as real);
      DeviationsTotal(pw, xs, mean, |xs|);
      assert xs[..|xs|] == xs;
      var variance := Spread(pw, xs, mean) / (|xs| - 1) as real;
      DivideExactly(Spread(pw, xs, mean), (|xs| - 1) as real);
    }
  }

  /** The growth into each of the bars `lo` up to, not including, `hi`, where a close other than zero comes before. */
  function GrowthsIn(values: seq<real>, lo: nat, hi: nat): seq<real>
    requires 1 <= lo <= hi <= |values|
  {
    if lo == hi then []
    else
      GrowthsIn(values, lo, hi - 1)
      + if values[hi - 2] == 0.0 then [] else [(values[hi - 1] - values[hi - 2]) / values[hi - 2]]
  }

  lemma {:induction false} GrowthsAreReturns(values: seq<real>, lo: nat, hi: nat)
    requires 1 <= lo <= hi <= |values|
    ensures ReturnsIn(Exact, values, lo, hi) == GrowthsIn(values, lo, hi)
  {
    if lo < hi {
      GrowthsAreReturns(values, lo, hi - 1);
    }
  }

  /** The volatility at a bar is that of the growths into the last `window` bars up to it, or into all there are. */
  lemma {:induction false} VolatilityWindow(pw: Powers, values: seq<real>, window: nat, i: nat)
    requires window >= 1 && i < |values|
    ensures i == 0 ==> VolatilityAt(Exact, pw, values, window, i).None?
    ensures i >= 1 ==>
      var lo := if i < window then 1 else i + 1 - window;
      VolatilityAt(Exact, pw, values, window, i) == Volatility(Exact, pw, GrowthsIn(values, lo, i + 1))
  {
    hide Volatility;
    if i >= 1 {
      GrowthsAreReturns(values, WindowStart(window, i), i + 1);
    }
  }
}
