/** Features of the machine-learning baseline: one row per bar whose indicators are all defined. */
module Features {
  import opened Numerics
  import opened Indicators
  import opened Strategy

  const RSI_PERIOD: nat := 14
  const MOMENTUM_PERIOD: nat := 10
  const VOL_WINDOW: nat := 20

  /** The two operations of the volatility that are not plain arithmetic. */
  datatype Powers = Powers(square: real -> real, root: real -> real)

  // ---- indicators, by index

  function ReturnAt(ar: Arith, values: seq<real>, i: nat): Option<real>
    requires i < |values|
  {
    if i == 0 || values[i - 1] == 0.0 then None
    else Some(ar.Div(ar.Sub(values[i], values[i - 1]), values[i - 1]))
  }

  function MomentumAt(ar: Arith, values: seq<real>, window: nat, i: nat): Option<real>
    requires i < |values|
  {
    if i < window || values[i - window] == 0.0 then None
    else Some(ar.Div(ar.Sub(values[i], values[i - window]), values[i - window]))
  }

  /** The defined returns of the bars `lo` up to, not including, `hi`. */
  function ReturnsIn(ar: Arith, values: seq<real>, lo: nat, hi: nat): (r: seq<real>)
    requires lo <= hi <= |values|
  {
    if lo == hi then []
    else
      ReturnsIn(ar, values, lo, hi - 1)
      + (match ReturnAt(ar, values, hi - 1) case None => [] case Some(x) => [x])
  }

  function Deviations(ar: Arith, pw: Powers, xs: seq<real>, mean: real, n: nat): seq<real>
    requires n <= |xs|
  {
    if n == 0 then [] else Deviations(ar, pw, xs, mean, n - 1) + [pw.square(ar.Sub(xs[n - 1], mean))]
  }

  function Volatility(ar: Arith, pw: Powers, xs: seq<real>): Option<real> {
    if |xs| < 2 then None
    else
      var mean := ar.Div(ar.Sum(xs), |xs| as real);
      Some(pw.root(ar.Div(ar.Sum(Deviations(ar, pw, xs, mean, |xs|)), (|xs| - 1) as real)))
  }

  /** First bar of the volatility window that ends at bar `i`. */
  function WindowStart(window: nat, i: nat): nat {
    if i < window then 1 else i - window + 1
  }

  function VolatilityAt(ar: Arith, pw: Powers, values: seq<real>, window: nat, i: nat): Option<real>
    requires window >= 1 && i < |values|
  {
    if i == 0 then None else Volatility(ar, pw, ReturnsIn(ar, values, WindowStart(window, i), i + 1))
  }

  // ---- indicators, as the source computes them; `raised` reports a window that is not positive

  method Returns(ar: Arith, values: seq<real>) returns (out: seq<Option<real>>)
    ensures |out| == |values|
    ensures forall i {:trigger out[i]} :: 0 <= i < |values| ==> out[i] == ReturnAt(ar, values, i)
  {
    out := seq(|values|, _ => None);
    if values == [] {
      return;
    }
    for i := 1 to |values|
      invariant |out| == |values|
      invariant forall k {:trigger out[k]} :: 0 <= k < |values| ==>
        out[k] == if k < i then ReturnAt(ar, values, k) else None
    {
      var prev := values[i - 1];
      out := out[i := if prev != 0.0 then Some(ar.Div(ar.Sub(values[i], prev), prev)) else None];
    }
  }

  method Momentum(ar: Arith, values: seq<real>, window: int)
    returns (out: seq<Option<real>>, raised: bool)
    ensures raised <==> window <= 0
    ensures !raised ==>
      && |out| == |values|
      && forall i {:trigger out[i]} :: 0 <= i < |values| ==> out[i] == MomentumAt(ar, values, window, i)
  {
    if window <= 0 {
      return [], true;
    }
    raised := false;
    out := seq(|values|, _ => None);
    if |values| <= window {
      return;
    }
    for i := window to |values|
      invariant |out| == |values|
      invariant forall k {:trigger out[k]} :: 0 <= k < |values| ==>
        out[k] == if k < i then MomentumAt(ar, values, window, k) else None
    {
      var base := values[i - window];
      out := out[i := if base != 0.0 then Some(ar.Div(ar.Sub(values[i], base), base)) else None];
    }
  }

  method Defined(ar: Arith, values: seq<real>, rets: seq<Option<real>>, lo: nat, hi: nat) returns (xs: seq<real>)
    requires |rets| == |values| && lo <= hi <= |values|
    requires forall i {:trigger rets[i]} :: 0 <= i < |values| ==> rets[i] == ReturnAt(ar, values, i)
    ensures xs == ReturnsIn(ar, values, lo, hi)
  {
    xs := [];
    for i := lo to hi
      invariant xs == ReturnsIn(ar, values, lo, i)
    {
      if rets[i].Some? {
        xs := xs + [rets[i].value];
      }
    }
  }

  method Variance(ar: Arith, pw: Powers, xs: seq<real>, mean: real) returns (deviations: seq<real>)
    ensures deviations == Deviations(ar, pw, xs, mean, |xs|)
  {
    deviations := [];
    for i := 0 to |xs|
      invariant deviations == Deviations(ar, pw, xs, mean, i)
    {
      deviations := deviations + [pw.square(ar.Sub(xs[i], mean))];
    }
  }

  method StandardDeviation(ar: Arith, pw: Powers, xs: seq<real>) returns (deviation: real)
    requires |xs| >= 2
    ensures Volatility(ar, pw, xs) == Some(deviation)
  {
    var mean := ar.Div(ar.Sum(xs), |xs| as real);
    var deviations := Variance(ar, pw, xs, mean);
    deviation := pw.root(ar.Div(ar.Sum(deviations), (|xs| - 1) as real));
  }

  method RealizedVolatility(ar: Arith, pw: Powers, values: seq<real>, window: int)
    returns (out: seq<Option<real>>, raised: bool)
    ensures raised <==> window <= 0
    ensures !raised ==>
      && |out| == |values|
      && forall i {:trigger out[i]} :: 0 <= i < |values| ==> out[i] == VolatilityAt(ar, pw, values, window, i)
  {
    if window <= 0 {
      return [], true;
    }
    raised := false;
    out := seq(|values|, _ => None);
    var rets := Returns(ar, values);
    for i := 0 to |values|
      invariant |out| == |values|
      invariant forall k {:trigger out[k]} :: 0 <= k < |values| ==>
        out[k] == if k < i then VolatilityAt(ar, pw, values, window, k) else None
    {
      var start := if i < window then 1 else i - window + 1;
      if start <= i {
        var xs := Defined(ar, values, rets, start, i + 1);
        if |xs| >= 2 {
          var deviation := StandardDeviation(ar, pw, xs);
          out := out[i := Some(deviation)];
        }
      }
    }
  }

  // ---- the matrix

  datatype FeatureMatrix = FeatureMatrix(indices: seq<nat>, features: seq<seq<real>>, labels: seq<int>)

  /** The row of bar `t`, if every indicator is defined there. */
  function RowAt(ar: Arith, pw: Powers, closes: seq<real>, t: nat): Option<seq<real>>
    requires t < |closes|
  {
    var r, rsi := ReturnAt(ar, closes, t), RsiAt(ar, closes, RSI_PERIOD, t);
    var m, v := MomentumAt(ar, closes, MOMENTUM_PERIOD, t), VolatilityAt(ar, pw, closes, VOL_WINDOW, t);
    if r.Some? && rsi.Some? && m.Some? && v.Some?
    then Some([r.value, ar.Sub(ar.Div(rsi.value, 50.0), 1.0), m.value, v.value])
    else None
  }

  /** Whether the close after bar `t` is higher. */
  function LabelAt(closes: seq<real>, t: nat): int
    requires t + 1 < |closes|
  {
    if closes[t + 1] > closes[t] then 1 else 0
  }

  /** The rows of the bars before `n`. */
  function RowsTo(ar: Arith, pw: Powers, closes: seq<real>, n: nat): (r: FeatureMatrix)
    requires n == 0 || n < |closes|
    ensures |r.indices| == |r.features| == |r.labels| <= n
    ensures forall k :: 0 <= k < |r.indices| ==> r.indices[k] < n
  {
    if n == 0 then FeatureMatrix([], [], [])
    else
      var before := RowsTo(ar, pw, closes, n - 1);
      match RowAt(ar, pw, closes, n - 1)
      case None => before
      case Some(row) =>
        FeatureMatrix(before.indices + [n - 1], before.features + [row], before.labels + [LabelAt(closes, n - 1)])
  }

  /** All rows of a series: the last bar has no label, so no row. */
  function Matrix(ar: Arith, pw: Powers, closes: seq<real>): (r: FeatureMatrix)
    ensures |r.indices| == |r.features| == |r.labels|
    ensures forall k :: 0 <= k < |r.indices| ==> r.indices[k] + 1 < |closes|
  {
    if closes == [] then FeatureMatrix([], [], []) else RowsTo(ar, pw, closes, |closes| - 1)
  }

  lemma {:induction false} NextRow(ar: Arith, pw: Powers, closes: seq<real>, n: nat)
    requires n + 1 < |closes|
    ensures
      var before, row := RowsTo(ar, pw, closes, n), RowAt(ar, pw, closes, n);
      RowsTo(ar, pw, closes, n + 1) ==
      if row.None? then before
      else FeatureMatrix(before.indices + [n], before.features + [row.value], before.labels + [LabelAt(closes, n)])
  {
  }

  /** Rows come in the order of their bars, each with the label of its own bar. */
  lemma {:induction false} RowsOrdered(ar: Arith, pw: Powers, closes: seq<real>, n: nat)
    requires n < |closes|
    ensures
      var r := RowsTo(ar, pw, closes, n);
      && (forall k :: 0 <= k < |r.indices| ==> r.labels[k] == LabelAt(closes, r.indices[k]))
      && (forall j, k :: 0 <= j < k < |r.indices| ==> r.indices[j] < r.indices[k])
  {
    if n > 0 {
      RowsOrdered(ar, pw, closes, n - 1);
      NextRow(ar, pw, closes, n - 1);
    }
  }

  /** What the rows hold: in order, the return, the RSI centred to [-1, 1], the momentum and the volatility of their
      bar, and as label whether the next close is higher. */
  predicate RowsHold(ar: Arith, pw: Powers, closes: seq<real>, fm: FeatureMatrix) {
    && |fm.indices| == |fm.features| == |fm.labels|
    && forall k :: 0 <= k < |fm.indices| ==>
         var t, row := fm.indices[k], fm.features[k];
         && t + 1 < |closes| && |row| == 4
         && ReturnAt(ar, closes, t) == Some(row[0])
         && RsiAt(ar, closes, RSI_PERIOD, t).Some?
         && row[1] == ar.Sub(ar.Div(RsiAt(ar, closes, RSI_PERIOD, t).value, 50.0), 1.0)
         && MomentumAt(ar, closes, MOMENTUM_PERIOD, t) == Some(row[2])
         && VolatilityAt(ar, pw, closes, VOL_WINDOW, t) == Some(row[3])
         && fm.labels[k] == (if closes[t + 1] > closes[t] then 1 else 0)
  }

  lemma {:induction false} RowsMean(ar: Arith, pw: Powers, closes: seq<real>, n: nat)
    requires n == 0 || n < |closes|
    ensures RowsHold(ar, pw, closes, RowsTo(ar, pw, closes, n))
  {
    hide ReturnAt, RsiAt, MomentumAt, VolatilityAt;
    if n > 0 {
      RowsMean(ar, pw, closes, n - 1);
    }
  }

  method BuildFeatures(ar: Arith, pw: Powers, candles: seq<Candle>) returns (fm: FeatureMatrix)
    ensures fm == Matrix(ar, pw, Closes(candles))
    ensures RowsHold(ar, pw, Closes(candles), fm)
  {
    hide ReturnAt, RsiAt, MomentumAt, VolatilityAt, RowsHold;
    var closes := Closes(candles);
    var rets := Returns(ar, closes);
    var rsis, _ := Rsi(ar, closes, RSI_PERIOD);
    var moms, _ := Momentum(ar, closes, MOMENTUM_PERIOD);
    var vols, _ := RealizedVolatility(ar, pw, closes, VOL_WINDOW);
    var indices: seq<nat>, features: seq<seq<real>>, labels: seq<int> := [], [], [];
    RowsMean(ar, pw, closes, if closes == [] then 0 else |closes| - 1);
    if |candles| == 0 {
      return FeatureMatrix([], [], []);
    }
    for t := 0 to |candles| - 1
      invariant FeatureMatrix(indices, features, labels) == RowsTo(ar, pw, closes, t)
    {
      if rets[t].Some? && rsis[t].Some? && moms[t].Some? && vols[t].Some? {
        var row := [rets[t].value, ar.Sub(ar.Div(rsis[t].value, 50.0), 1.0), moms[t].value, vols[t].value];
        features := features + [row];
        labels := labels + [if closes[t + 1] > closes[t] then 1 else 0];
        indices := indices + [t];
      }
    }
    return FeatureMatrix(indices, features, labels);
  }

  // ---- causality

  lemma {:induction false} ReturnsCausal(ar: Arith, a: seq<real>, b: seq<real>, lo: nat, hi: nat)
    requires lo <= hi <= |a| && hi <= |b| && a[..hi] == b[..hi]
    ensures ReturnsIn(ar, a, lo, hi) == ReturnsIn(ar, b, lo, hi)
  {
    if lo < hi {
      assert a[..hi - 1] == a[..hi][..hi - 1] == b[..hi - 1];
      ReturnsCausal(ar, a, b, lo, hi - 1);
      ReturnCausal(ar, a, b, hi - 1);
    }
  }

  lemma {:induction false} ReturnCausal(ar: Arith, a: seq<real>, b: seq<real>, i: nat)
    requires i < |a| && i < |b| && a[..i + 1] == b[..i + 1]
    ensures ReturnAt(ar, a, i) == ReturnAt(ar, b, i)
  {
    assert a[i] == a[..i + 1][i] && b[i] == b[..i + 1][i];
    if i > 0 {
      assert a[i - 1] == a[..i + 1][i - 1] && b[i - 1] == b[..i + 1][i - 1];
    }
  }

  lemma {:induction false} MomentumCausal(ar: Arith, a: seq<real>, b: seq<real>, window: nat, i: nat)
    requires i < |a| && i < |b| && a[..i + 1] == b[..i + 1]
    ensures MomentumAt(ar, a, window, i) == MomentumAt(ar, b, window, i)
  {
    assert a[i] == a[..i + 1][i] && b[i] == b[..i + 1][i];
    if i >= window {
      assert a[i - window] == a[..i + 1][i - window] && b[i - window] == b[..i + 1][i - window];
    }
  }

  /** A row reads nothing after its own bar. */
  lemma {:induction false} RowCausal(ar: Arith, pw: Powers, a: seq<real>, b: seq<real>, t: nat)
    requires t < |a| && t < |b| && a[..t + 1] == b[..t + 1]
    ensures RowAt(ar, pw, a, t) == RowAt(ar, pw, b, t)
  {
    ReturnCausal(ar, a, b, t);
    RsiCausal(ar, a, b, RSI_PERIOD, t);
    MomentumCausal(ar, a, b, MOMENTUM_PERIOD, t);
    if t > 0 {
      ReturnsCausal(ar, a, b, WindowStart(VOL_WINDOW, t), t + 1);
    }
  }

  /** Series that agree on their first `n` closes have the same rows before bar `n`. */
  lemma {:induction false} RowsCausal(ar: Arith, pw: Powers, a: seq<real>, b: seq<real>, n: nat)
    requires n < |a| && n < |b| && a[..n] == b[..n]
    ensures
      var x, y := RowsTo(ar, pw, a, n), RowsTo(ar, pw, b, n);
      x.indices == y.indices && x.features == y.features
  {
    if n > 0 {
      assert a[..n - 1] == a[..n][..n - 1] == b[..n - 1];
      RowsCausal(ar, pw, a, b, n - 1);
      RowCausal(ar, pw, a, b, n - 1);
    }
  }

  /** Rows before bar `n` are the beginning of the rows of the whole series. */
  lemma {:induction false} RowsGrow(ar: Arith, pw: Powers, closes: seq<real>, n: nat, m: nat)
    requires n <= m < |closes|
    ensures
      var x, y := RowsTo(ar, pw, closes, n), RowsTo(ar, pw, closes, m);
      && |x.indices| <= |y.indices|
      && y.indices[..|x.indices|] == x.indices && y.features[..|x.indices|] == x.features
      && forall k :: |x.indices| <= k < |y.indices| ==> n <= y.indices[k]
  {
    hide RowAt, LabelAt;
    if n < m {
      RowsGrow(ar, pw, closes, n, m - 1);
      NextRow(ar, pw, closes, m - 1);
    }
  }

  // ---- which bars have a row

  predicate NonZero(values: seq<real>) {
    forall i :: 0 <= i < |values| ==> values[i] != 0.0
  }

  lemma {:induction false} AllReturns(ar: Arith, values: seq<real>, lo: nat, hi: nat)
    requires NonZero(values) && 1 <= lo <= hi <= |values|
    ensures |ReturnsIn(ar, values, lo, hi)| == hi - lo
  {
    if lo < hi {
      AllReturns(ar, values, lo, hi - 1);
    }
  }

  lemma {:induction false} RowWhenNonZero(ar: Arith, pw: Powers, closes: seq<real>, t: nat)
    requires NonZero(closes) && t < |closes|
    ensures RowAt(ar, pw, closes, t).Some? <==> t >= RSI_PERIOD
  {
    if t >= RSI_PERIOD {
      AllReturns(ar, closes, WindowStart(VOL_WINDOW, t), t + 1);
    }
  }

  /** With no zero close, the rows are those of every bar from the fourteenth on: their number depends on the length
      of the series alone. */
  lemma {:induction false} RowsWhenNonZero(ar: Arith, pw: Powers, closes: seq<real>, n: nat)
    requires NonZero(closes) && n < |closes|
    ensures |RowsTo(ar, pw, closes, n).indices| == if n <= RSI_PERIOD then 0 else n - RSI_PERIOD
    ensures forall k :: 0 <= k < |RowsTo(ar, pw, closes, n).indices| ==>
      RowsTo(ar, pw, closes, n).indices[k] == RSI_PERIOD + k
  {
    if n > 0 {
      RowsWhenNonZero(ar, pw, closes, n - 1);
      RowWhenNonZero(ar, pw, closes, n - 1);
      NextRow(ar, pw, closes, n - 1);
    }
  }

  // ---- the same, read off the closes

  /** How many bars from `lo` up to `hi` have a return: those whose previous close is not zero. */
  function DefinedReturns(values: seq<real>, lo: nat, hi: nat): nat
    requires lo <= hi <= |values|
  {
    if lo == hi then 0
    else DefinedReturns(values, lo, hi - 1) + if hi - 1 > 0 && values[hi - 2] != 0.0 then 1 else 0
  }

  /** A bar is usable when the RSI has warmed up, the closes one and ten bars earlier are not zero, and the volatility
      window holds at least two returns. */
  predicate Usable(closes: seq<real>, t: nat)
    requires t < |closes|
  {
    && t >= RSI_PERIOD && closes[t - 1] != 0.0 && closes[t - MOMENTUM_PERIOD] != 0.0
    && DefinedReturns(closes, WindowStart(VOL_WINDOW, t), t + 1) >= 2
  }

  function UsableRows(closes: seq<real>, n: nat): nat
    requires n <= |closes|
  {
    if n == 0 then 0 else UsableRows(closes, n - 1) + if Usable(closes, n - 1) then 1 else 0
  }

  /** The rows of a whole series: its last bar has no label. */
  function TotalRows(closes: seq<real>): nat {
    if closes == [] then 0 else UsableRows(closes, |closes| - 1)
  }

  lemma {:induction false} CountReturns(ar: Arith, values: seq<real>, lo: nat, hi: nat)
    requires lo <= hi <= |values|
    ensures |ReturnsIn(ar, values, lo, hi)| == DefinedReturns(values, lo, hi)
  {
    if lo < hi {
      CountReturns(ar, values, lo, hi - 1);
    }
  }

  /** The rows of the matrix are exactly the usable bars. */
  lemma {:induction false} UsableIff(ar: Arith, pw: Powers, closes: seq<real>, t: nat)
    requires t < |closes|
    ensures RowAt(ar, pw, closes, t).Some? <==> Usable(closes, t)
  {
    if t > 0 {
      CountReturns(ar, closes, WindowStart(VOL_WINDOW, t), t + 1);
    }
  }

  lemma {:induction false} CountRows(ar: Arith, pw: Powers, closes: seq<real>, n: nat)
    requires n < |closes|
    ensures |RowsTo(ar, pw, closes, n).indices| == UsableRows(closes, n)
  {
    hide RowAt, Usable, LabelAt;
    if n > 0 {
      CountRows(ar, pw, closes, n - 1);
      UsableIff(ar, pw, closes, n - 1);
      NextRow(ar, pw, closes, n - 1);
    }
  }

  lemma {:induction false} CountMatrix(ar: Arith, pw: Powers, closes: seq<real>)
    ensures |Matrix(ar, pw, closes).indices| == TotalRows(closes)
  {
    if closes != [] {
      CountRows(ar, pw, closes, |closes| - 1);
    }
  }
}
