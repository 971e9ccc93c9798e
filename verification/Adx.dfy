/** The average directional index, and the bounds every indicator keeps on well-formed candles. */
module Adx {
  import opened Numerics
  import opened Indicators

  // ---- directional movement and its smoothing

  function PlusMove(ar: Arith, prev: Candle, cur: Candle): real {
    var up, down := ar.Sub(cur.high, prev.high), ar.Sub(prev.low, cur.low);
    if up > down && up > 0.0 then up else 0.0
  }

  function MinusMove(ar: Arith, prev: Candle, cur: Candle): real {
    var up, down := ar.Sub(cur.high, prev.high), ar.Sub(prev.low, cur.low);
    if up > down && up > 0.0 then 0.0 else if down > up && down > 0.0 then down else 0.0
  }

  /** Range and movements of one step. */
  datatype Move = Move(range: real, plus: real, minus: real)

  function MoveInto(ar: Arith, candles: seq<Candle>, i: nat): Move
    requires 1 <= i < |candles|
  {
    Move(TrueRange(ar, candles[i - 1].close, candles[i]), PlusMove(ar, candles[i - 1], candles[i]),
         MinusMove(ar, candles[i - 1], candles[i]))
  }

  /** Upward moves into the candles at indices 1..n. */
  function PlusMoves(ar: Arith, candles: seq<Candle>, n: nat): (r: seq<real>)
    requires n < |candles|
    ensures |r| == n
  {
    if n == 0 then [] else PlusMoves(ar, candles, n - 1) + [PlusMove(ar, candles[n - 1], candles[n])]
  }

  function MinusMoves(ar: Arith, candles: seq<Candle>, n: nat): (r: seq<real>)
    requires n < |candles|
    ensures |r| == n
  {
    if n == 0 then [] else MinusMoves(ar, candles, n - 1) + [MinusMove(ar, candles[n - 1], candles[n])]
  }

  function Mean(ar: Arith, xs: seq<real>): real {
    ar.Div(ar.Sum(xs), |xs| as real)
  }

  function Seed(ar: Arith, candles: seq<Candle>, period: nat): Move
    requires 1 <= period < |candles|
  {
    Move(Mean(ar, TrueRanges(ar, candles, period)), Mean(ar, PlusMoves(ar, candles, period)),
         Mean(ar, MinusMoves(ar, candles, period)))
  }

  function Smooth(ar: Arith, s: Move, period: nat, m: Move): Move {
    Move(Wilder(ar, s.range, period, m.range), Wilder(ar, s.plus, period, m.plus),
         Wilder(ar, s.minus, period, m.minus))
  }

  /** Wilder-smoothed move at index `i`, seeded with the mean of the first `period` moves. */
  function Smoothed(ar: Arith, candles: seq<Candle>, period: nat, i: nat): Move
    requires 1 <= period <= i < |candles|
    decreases i
  {
    if i == period then Seed(ar, candles, period)
    else Smooth(ar, Smoothed(ar, candles, period, i - 1), period, MoveInto(ar, candles, i))
  }

  function PlusDi(ar: Arith, s: Move): real {
    if s.range == 0.0 then 0.0 else ar.Div(ar.Mul(100.0, s.plus), s.range)
  }

  function MinusDi(ar: Arith, s: Move): real {
    if s.range == 0.0 then 0.0 else ar.Div(ar.Mul(100.0, s.minus), s.range)
  }

  function Dx(ar: Arith, s: Move): real {
    var p, m := PlusDi(ar, s), MinusDi(ar, s);
    var sum := ar.Add(p, m);
    if sum != 0.0 then ar.Div(ar.Mul(100.0, Abs(ar.Sub(p, m))), sum) else 0.0
  }

  function DxAt(ar: Arith, candles: seq<Candle>, period: nat, i: nat): real
    requires 1 <= period <= i < |candles|
  {
    Dx(ar, Smoothed(ar, candles, period, i))
  }

  /** Running sum of the first `n` DX values, added one by one. */
  function DxSum(ar: Arith, candles: seq<Candle>, period: nat, n: nat): real
    requires 1 <= period && period + n <= |candles|
  {
    if n == 0 then 0.0
    else ar.Add(DxSum(ar, candles, period, n - 1), DxAt(ar, candles, period, period + n - 1))
  }

  function AdxAt(ar: Arith, candles: seq<Candle>, period: nat, i: nat): Option<real>
    requires period >= 1 && i < |candles|
    decreases i
  {
    if i + 1 < 2 * period then None
    else if i + 1 == 2 * period then Some(ar.Div(DxSum(ar, candles, period, period), period as real))
    else
      Some(Wilder(ar, AdxAt(ar, candles, period, i - 1).GetOr(0.0), period, DxAt(ar, candles, period, i)))
  }

  /** The smoothed moves and the DX of index `i`, from the smoothed moves of the index before. */
  method NextDx(ar: Arith, candles: seq<Candle>, period: nat, i: nat, before: Move) returns (smooth: Move, dx: real)
    requires 1 <= period <= i < |candles|
    requires before == Smoothed(ar, candles, period, if i == period then period else i - 1)
    ensures smooth == Smoothed(ar, candles, period, i) && dx == DxAt(ar, candles, period, i)
  {
    smooth := before;
    if i > period {
      smooth := Smooth(ar, smooth, period, MoveInto(ar, candles, i));
    }
    dx := Dx(ar, smooth);
  }

  /** One step of the running DX sum and of the ADX, at index `i`. */
  lemma {:induction false} AdxStep(ar: Arith, candles: seq<Candle>, period: nat, i: nat)
    requires 1 <= period <= i < |candles|
    ensures i < 2 * period ==>
      DxSum(ar, candles, period, i - period + 1)
      == ar.Add(DxSum(ar, candles, period, i - period), DxAt(ar, candles, period, i))
    ensures i + 1 < 2 * period ==> AdxAt(ar, candles, period, i).None?
    ensures i + 1 == 2 * period ==>
      AdxAt(ar, candles, period, i) == Some(ar.Div(DxSum(ar, candles, period, i - period + 1), period as real))
    ensures i + 1 > 2 * period ==>
      AdxAt(ar, candles, period, i)
      == Some(Wilder(ar, AdxAt(ar, candles, period, i - 1).GetOr(0.0), period, DxAt(ar, candles, period, i)))
  {
  }

  /** The averaging state before index `i`: the seed is summed until `period` DX values are in. */
  ghost predicate Averaging(
    ar: Arith, candles: seq<Candle>, period: nat, i: nat, dxSum: real, dxCount: nat, adx: real)
    requires 1 <= period <= i <= |candles|
  {
    && dxCount == (if i < 2 * period then i - period else period)
    && (i <= 2 * period ==> dxSum == DxSum(ar, candles, period, i - period))
    && (i >= 2 * period ==> AdxAt(ar, candles, period, i - 1) == Some(adx))
  }

  method Average(
    ar: Arith, ghost candles: seq<Candle>, period: nat, ghost i: nat, dx: real, sum: real, count: nat, last: real)
    returns (dxSum: real, dxCount: nat, adx: real, value: Option<real>)
    requires 1 <= period <= i < |candles| && dx == DxAt(ar, candles, period, i)
    requires Averaging(ar, candles, period, i, sum, count, last)
    ensures Averaging(ar, candles, period, i + 1, dxSum, dxCount, adx)
    ensures value == AdxAt(ar, candles, period, i)
  {
    AdxStep(ar, candles, period, i);
    dxSum, dxCount, adx, value := sum, count, last, None;
    if dxCount < period {
      dxSum := ar.Add(dxSum, dx);
      dxCount := dxCount + 1;
      if dxCount == period {
        adx := ar.Div(dxSum, period as real);
        value := Some(adx);
      }
    } else {
      adx := Wilder(ar, adx, period, dx);
      value := Some(adx);
    }
  }

  /** The first `n` values of the series. */
  function AdxList(ar: Arith, candles: seq<Candle>, period: nat, n: nat): (r: seq<Option<real>>)
    requires period >= 1 && n <= |candles|
    ensures |r| == n
  {
    if n == 0 then [] else AdxList(ar, candles, period, n - 1) + [AdxAt(ar, candles, period, n - 1)]
  }

  lemma {:induction false} AdxListAt(ar: Arith, candles: seq<Candle>, period: nat, n: nat, k: nat)
    requires period >= 1 && k < n <= |candles|
    ensures AdxList(ar, candles, period, n)[k] == AdxAt(ar, candles, period, k)
  {
    hide AdxAt;
    if k < n - 1 {
      AdxListAt(ar, candles, period, n - 1, k);
    }
  }

  lemma {:induction false} AdxWarmup(ar: Arith, candles: seq<Candle>, period: nat, n: nat)
    requires period >= 1 && n <= |candles| && n < 2 * period
    ensures AdxList(ar, candles, period, n) == seq(n, _ => None)
  {
    if n > 0 {
      AdxWarmup(ar, candles, period, n - 1);
    }
  }

  /** One index: the next DX, and what the averaging makes of it. */
  method AdxBar(
    ar: Arith, candles: seq<Candle>, period: nat, i: nat, before: Move, sum: real, count: nat, last: real)
    returns (smooth: Move, dxSum: real, dxCount: nat, adx: real, value: Option<real>)
    requires 1 <= period <= i < |candles|
    requires before == Smoothed(ar, candles, period, if i == period then period else i - 1)
    requires Averaging(ar, candles, period, i, sum, count, last)
    ensures smooth == Smoothed(ar, candles, period, i)
    ensures Averaging(ar, candles, period, i + 1, dxSum, dxCount, adx)
    ensures value == AdxAt(ar, candles, period, i)
  {
    var dx;
    smooth, dx := NextDx(ar, candles, period, i, before);
    dxSum, dxCount, adx, value := Average(ar, candles, period, i, dx, sum, count, last);
  }

  lemma {:induction false} ListGrows(
    ar: Arith, candles: seq<Candle>, period: nat, out: seq<Option<real>>, i: nat, value: Option<real>)
    requires period >= 1 && i < |candles| == |out| && out[..i] == AdxList(ar, candles, period, i)
    requires value == AdxAt(ar, candles, period, i)
    ensures out[i := value][..i + 1] == AdxList(ar, candles, period, i + 1)
  {
    assert out[i := value][..i + 1] == out[..i] + [value];
  }

  /** Smoothing and averaging in one pass from the seed on, as the source does them. */
  method SmoothAndAverage(ar: Arith, candles: seq<Candle>, period: nat, seed: Move) returns (out: seq<Option<real>>)
    requires 1 <= period && 2 * period <= |candles| && seed == Smoothed(ar, candles, period, period)
    ensures out == AdxList(ar, candles, period, |candles|)
  {
    out := seq(|candles|, _ => None);
    AdxWarmup(ar, candles, period, period);
    var smooth := seed;
    var dxSum, dxCount, adx := 0.0, 0, 0.0;
    for i := period to |candles|
      invariant smooth == Smoothed(ar, candles, period, if i == period then period else i - 1)
      invariant Averaging(ar, candles, period, i, dxSum, dxCount, adx)
      invariant |out| == |candles| && out[..i] == AdxList(ar, candles, period, i)
    {
      var value;
      smooth, dxSum, dxCount, adx, value := AdxBar(ar, candles, period, i, smooth, dxSum, dxCount, adx);
      ListGrows(ar, candles, period, out, i, value);
      out := out[i := value];
    }
    assert out[..|candles|] == out;
  }

  method ComputeAdx(ar: Arith, candles: seq<Candle>, period: int)
    returns (out: seq<Option<real>>, raised: bool)
    ensures raised <==> period <= 0
    ensures !raised ==>
      |out| == |candles| && forall i {:trigger out[i]} :: 0 <= i < |candles| ==> out[i] == AdxAt(ar, candles, period, i)
  {
    if period <= 0 {
      return [], true;
    }
    raised := false;
    if |candles| < 2 * period {
      return seq(|candles|, _ => None), false;
    }
    var ranges, pluses, minuses := MoveLists(ar, candles, period);
    var seed := Move(Mean(ar, ranges), Mean(ar, pluses), Mean(ar, minuses));
    out := SmoothAndAverage(ar, candles, period, seed);
    forall i | 0 <= i < |candles|
      ensures out[i] == AdxAt(ar, candles, period, i)
    {
      AdxListAt(ar, candles, period, |candles|, i);
    }
  }

  /** The moves into indices 1..n, computed step by step. */
  method MoveLists(ar: Arith, candles: seq<Candle>, n: nat)
    returns (ranges: seq<real>, pluses: seq<real>, minuses: seq<real>)
    requires n < |candles|
    ensures ranges == TrueRanges(ar, candles, n)
    ensures pluses == PlusMoves(ar, candles, n) && minuses == MinusMoves(ar, candles, n)
  {
    ranges, pluses, minuses := [], [], [];
    for i := 1 to n + 1
      invariant ranges == TrueRanges(ar, candles, i - 1)
      invariant pluses == PlusMoves(ar, candles, i - 1) && minuses == MinusMoves(ar, candles, i - 1)
    {
      var m := MoveInto(ar, candles, i);
      ranges, pluses, minuses := ranges + [m.range], pluses + [m.plus], minuses + [m.minus];
    }
  }
}
