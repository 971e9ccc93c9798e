/** Causal indicators over whole series, their streaming counterparts, and that the two are the same numbers. */
module Indicators {
  import opened Numerics

  datatype Candle = Candle(ts: int, open: real, high: real, low: real, close: real, volume: real, turnover: real)

  /** What a candle checks about itself when it is built. */
  predicate WellFormed(c: Candle) {
    c.high >= Max(c.open, c.close) && c.low <= Min(c.open, c.close) && c.volume >= 0.0 && c.turnover >= 0.0
  }

  function Closes(candles: seq<Candle>): (r: seq<real>)
    ensures |r| == |candles| && forall i :: 0 <= i < |r| ==> r[i] == candles[i].close
  {
    seq(|candles|, i requires 0 <= i < |candles| => candles[i].close)
  }

  // ---- whole series, by index

  /** EMA at index `i`: seeded with the mean of the first `period` values, nothing before that. */
  function EmaAt(ar: Arith, values: seq<real>, period: nat, i: nat): Option<real>
    requires period >= 1 && i < |values|
    decreases i
  {
    if i + 1 < period then None
    else if i + 1 == period then Some(ar.Div(ar.Sum(values[..period]), period as real))
    else
      var alpha := ar.Div(2.0, (period + 1) as real);
      var prev := EmaAt(ar, values, period, i - 1);
      Some(ar.Add(ar.Mul(alpha, values[i]), ar.Mul(ar.Sub(1.0, alpha), prev.GetOr(0.0))))
  }

  function Gain(ar: Arith, before: real, after: real): real {
    Max(ar.Sub(after, before), 0.0)
  }

  function Loss(ar: Arith, before: real, after: real): real {
    Max(-ar.Sub(after, before), 0.0)
  }

  /** Gains of the steps into indices 1..n. */
  function Gains(ar: Arith, values: seq<real>, n: nat): (r: seq<real>)
    requires n < |values|
    ensures |r| == n
  {
    if n == 0 then [] else Gains(ar, values, n - 1) + [Gain(ar, values[n - 1], values[n])]
  }

  function Losses(ar: Arith, values: seq<real>, n: nat): (r: seq<real>)
    requires n < |values|
    ensures |r| == n
  {
    if n == 0 then [] else Losses(ar, values, n - 1) + [Loss(ar, values[n - 1], values[n])]
  }

  /** One step of Wilder's smoothing. */
  function Wilder(ar: Arith, avg: real, period: nat, x: real): real {
    ar.Div(ar.Add(ar.Mul(avg, (period as int - 1) as real), x), period as real)
  }

  function AvgGain(ar: Arith, values: seq<real>, period: nat, i: nat): real
    requires 1 <= period <= i < |values|
    decreases i
  {
    if i == period then ar.Div(ar.Sum(Gains(ar, values, period)), period as real)
    else Wilder(ar, AvgGain(ar, values, period, i - 1), period, Gain(ar, values[i - 1], values[i]))
  }

  function AvgLoss(ar: Arith, values: seq<real>, period: nat, i: nat): real
    requires 1 <= period <= i < |values|
    decreases i
  {
    if i == period then ar.Div(ar.Sum(Losses(ar, values, period)), period as real)
    else Wilder(ar, AvgLoss(ar, values, period, i - 1), period, Loss(ar, values[i - 1], values[i]))
  }

  function RsiValue(ar: Arith, avgGain: real, avgLoss: real): real {
    if avgLoss == 0.0 then (if avgGain > 0.0 then 100.0 else 50.0)
    else ar.Sub(100.0, ar.Div(100.0, ar.Add(1.0, ar.Div(avgGain, avgLoss))))
  }

  function RsiAt(ar: Arith, values: seq<real>, period: nat, i: nat): Option<real>
    requires period >= 1 && i < |values|
  {
    if i < period then None
    else Some(RsiValue(ar, AvgGain(ar, values, period, i), AvgLoss(ar, values, period, i)))
  }

  function TrueRange(ar: Arith, prevClose: real, c: Candle): real {
    Max(Max(ar.Sub(c.high, c.low), Abs(ar.Sub(c.high, prevClose))), Abs(ar.Sub(c.low, prevClose)))
  }

  /** True ranges of the candles at indices 1..n. */
  function TrueRanges(ar: Arith, candles: seq<Candle>, n: nat): (r: seq<real>)
    requires n < |candles|
    ensures |r| == n
  {
    if n == 0 then [] else TrueRanges(ar, candles, n - 1) + [TrueRange(ar, candles[n - 1].close, candles[n])]
  }

  /** ATR at index `i`: the mean of the first `period` true ranges at index `period`, then Wilder's smoothing. */
  function AtrAt(ar: Arith, candles: seq<Candle>, period: nat, i: nat): Option<real>
    requires period >= 1 && i < |candles|
    decreases i
  {
    if i < period then None
    else if i == period then Some(ar.Div(ar.Sum(TrueRanges(ar, candles, period)), period as real))
    else
      var prev := AtrAt(ar, candles, period, i - 1);
      Some(Wilder(ar, prev.GetOr(0.0), period, TrueRange(ar, candles[i - 1].close, candles[i])))
  }

  // ---- whole series, as the source computes them; `raised` reports a period that is not positive

  method Ema(ar: Arith, values: seq<real>, period: int)
    returns (out: seq<Option<real>>, raised: bool)
    ensures raised <==> period <= 0
    ensures !raised ==>
      |out| == |values| && forall i {:trigger out[i]} :: 0 <= i < |values| ==> out[i] == EmaAt(ar, values, period, i)
  {
    if period <= 0 {
      return [], true;
    }
    raised := false;
    out := seq(|values|, _ => None);
    if |values| < period {
      return;
    }
    var alpha := ar.Div(2.0, (period + 1) as real);
    var prev := ar.Div(ar.Sum(values[..period]), period as real);
    out := out[period - 1 := Some(prev)];
    for i := period to |values|
      invariant EmaAt(ar, values, period, i - 1) == Some(prev)
      invariant |out| == |values|
      invariant forall k {:trigger out[k]} :: 0 <= k < i ==> out[k] == EmaAt(ar, values, period, k)
    {
      prev := ar.Add(ar.Mul(alpha, values[i]), ar.Mul(ar.Sub(1.0, alpha), prev));
      out := out[i := Some(prev)];
    }
  }

  /** The gain and loss of every step, index 0 left at zero. */
  method Changes(ar: Arith, values: seq<real>) returns (gains: seq<real>, losses: seq<real>)
    requires values != []
    ensures |gains| == |losses| == |values|
    ensures gains[1..] == Gains(ar, values, |values| - 1) && losses[1..] == Losses(ar, values, |values| - 1)
    ensures forall k {:trigger gains[k]} :: 1 <= k < |values| ==> gains[k] == Gain(ar, values[k - 1], values[k])
    ensures forall k {:trigger losses[k]} :: 1 <= k < |values| ==> losses[k] == Loss(ar, values[k - 1], values[k])
  {
    gains := seq(|values|, _ => 0.0);
    losses := seq(|values|, _ => 0.0);
    for i := 1 to |values|
      invariant |gains| == |losses| == |values|
      invariant forall k :: i <= k < |values| ==> gains[k] == 0.0 && losses[k] == 0.0
      invariant forall k {:trigger gains[k]} :: 1 <= k < i ==> gains[k] == Gain(ar, values[k - 1], values[k])
      invariant forall k {:trigger losses[k]} :: 1 <= k < i ==> losses[k] == Loss(ar, values[k - 1], values[k])
    {
      var change := ar.Sub(values[i], values[i - 1]);
      if change > 0.0 {
        gains := gains[i := change];
      } else {
        losses := losses[i := -change];
      }
    }
    ChangesListed(ar, values, gains, losses, |values| - 1);
  }

  lemma {:induction false} ChangesListed(
    ar: Arith, values: seq<real>, gains: seq<real>, losses: seq<real>, n: nat)
    requires n < |values| == |gains| == |losses|
    requires forall k {:trigger gains[k]} :: 1 <= k <= n ==> gains[k] == Gain(ar, values[k - 1], values[k])
    requires forall k {:trigger losses[k]} :: 1 <= k <= n ==> losses[k] == Loss(ar, values[k - 1], values[k])
    ensures gains[1..n + 1] == Gains(ar, values, n) && losses[1..n + 1] == Losses(ar, values, n)
  {
    hide Gain, Loss;
    if n > 0 {
      ChangesListed(ar, values, gains, losses, n - 1);
      assert gains[1..n + 1] == gains[1..n] + [gains[n]] && losses[1..n + 1] == losses[1..n] + [losses[n]];
    }
  }

  method Rsi(ar: Arith, values: seq<real>, period: int)
    returns (out: seq<Option<real>>, raised: bool)
    ensures raised <==> period <= 0
    ensures !raised ==>
      |out| == |values| && forall i {:trigger out[i]} :: 0 <= i < |values| ==> out[i] == RsiAt(ar, values, period, i)
  {
    hide Gain, Loss, Gains, Losses, Wilder, RsiValue;
    if period <= 0 {
      return [], true;
    }
    raised := false;
    out := seq(|values|, _ => None);
    if |values| < period + 1 {
      return;
    }
    var gains, losses := Changes(ar, values);
    SeedChanges(ar, values, gains, losses, period);
    var avgGain := ar.Div(ar.Sum(gains[1..period + 1]), period as real);
    var avgLoss := ar.Div(ar.Sum(losses[1..period + 1]), period as real);
    out := out[period := Some(RsiValue(ar, avgGain, avgLoss))];
    for i := period + 1 to |values|
      invariant avgGain == AvgGain(ar, values, period, i - 1) && avgLoss == AvgLoss(ar, values, period, i - 1)
      invariant |out| == |values|
      invariant forall k {:trigger out[k]} :: 0 <= k < i ==> out[k] == RsiAt(ar, values, period, k)
    {
      avgGain := Wilder(ar, avgGain, period, gains[i]);
      avgLoss := Wilder(ar, avgLoss, period, losses[i]);
      out := out[i := Some(RsiValue(ar, avgGain, avgLoss))];
    }
  }

  lemma {:induction false} SlicedGains(ar: Arith, values: seq<real>, n: nat, k: nat)
    requires k <= n < |values|
    ensures Gains(ar, values, n)[..k] == Gains(ar, values, k) && Losses(ar, values, n)[..k] == Losses(ar, values, k)
  {
    if k < n {
      SlicedGains(ar, values, n - 1, k);
    }
  }

  /** The true range of every candle, index 0 as high minus low. */
  method RangeList(ar: Arith, candles: seq<Candle>) returns (trs: seq<real>)
    requires candles != []
    ensures |trs| == |candles| && trs[1..] == TrueRanges(ar, candles, |candles| - 1)
    ensures forall k {:trigger trs[k]} :: 1 <= k < |candles| ==>
      trs[k] == TrueRange(ar, candles[k - 1].close, candles[k])
  {
    trs := seq(|candles|, _ => 0.0);
    trs := trs[0 := ar.Sub(candles[0].high, candles[0].low)];
    for i := 1 to |candles|
      invariant |trs| == |candles| && trs[1..i] == TrueRanges(ar, candles, i - 1)
      invariant forall k {:trigger trs[k]} :: 1 <= k < i ==> trs[k] == TrueRange(ar, candles[k - 1].close, candles[k])
    {
      var prevClose := candles[i - 1].close;
      var tr := Max(Max(ar.Sub(candles[i].high, candles[i].low), Abs(ar.Sub(candles[i].high, prevClose))),
                    Abs(ar.Sub(candles[i].low, prevClose)));
      ghost var before := trs[1..i];
      trs := trs[i := tr];
      assert trs[1..i + 1] == before + [tr];
    }
  }

  lemma {:induction false} SeedChanges(ar: Arith, values: seq<real>, gains: seq<real>, losses: seq<real>, period: nat)
    requires 1 <= period < |values| && |gains| == |losses| == |values|
    requires gains[1..] == Gains(ar, values, |values| - 1) && losses[1..] == Losses(ar, values, |values| - 1)
    ensures ar.Div(ar.Sum(gains[1..period + 1]), period as real) == AvgGain(ar, values, period, period)
    ensures ar.Div(ar.Sum(losses[1..period + 1]), period as real) == AvgLoss(ar, values, period, period)
  {
    SlicedGains(ar, values, |values| - 1, period);
    assert gains[1..period + 1] == gains[1..][..period] && losses[1..period + 1] == losses[1..][..period];
  }

  method Atr(ar: Arith, candles: seq<Candle>, period: int)
    returns (out: seq<Option<real>>, raised: bool)
    ensures raised <==> period <= 0
    ensures !raised ==>
      |out| == |candles| && forall i {:trigger out[i]} :: 0 <= i < |candles| ==> out[i] == AtrAt(ar, candles, period, i)
  {
    hide TrueRange, TrueRanges, Wilder;
    if period <= 0 {
      return [], true;
    }
    raised := false;
    out := seq(|candles|, _ => None);
    if |candles| < period + 1 {
      return;
    }
    var trs := RangeList(ar, candles);
    SeedRanges(ar, candles, trs, period);
    var avg := ar.Div(ar.Sum(trs[1..period + 1]), period as real);
    out := out[period := Some(avg)];
    for i := period + 1 to |candles|
      invariant AtrAt(ar, candles, period, i - 1) == Some(avg)
      invariant |out| == |candles|
      invariant forall k {:trigger out[k]} :: 0 <= k < i ==> out[k] == AtrAt(ar, candles, period, k)
    {
      avg := Wilder(ar, avg, period, trs[i]);
      out := out[i := Some(avg)];
    }
  }

  lemma {:induction false} SeedRanges(ar: Arith, candles: seq<Candle>, trs: seq<real>, period: nat)
    requires 1 <= period < |candles| == |trs| && trs[1..] == TrueRanges(ar, candles, |candles| - 1)
    ensures AtrAt(ar, candles, period, period) == Some(ar.Div(ar.Sum(trs[1..period + 1]), period as real))
  {
    SlicedRanges(ar, candles, |candles| - 1, period);
    assert trs[1..period + 1] == trs[1..][..period];
  }

  lemma {:induction false} SlicedRanges(ar: Arith, candles: seq<Candle>, n: nat, k: nat)
    requires k <= n < |candles|
    ensures TrueRanges(ar, candles, n)[..k] == TrueRanges(ar, candles, k)
  {
    if k < n {
      SlicedRanges(ar, candles, n - 1, k);
    }
  }

  // ---- causality: a value depends on nothing after its own index

  lemma {:induction false} RangesCausal(ar: Arith, a: seq<Candle>, b: seq<Candle>, n: nat)
    requires n < |a| && n < |b| && a[..n + 1] == b[..n + 1]
    ensures TrueRanges(ar, a, n) == TrueRanges(ar, b, n)
  {
    if n > 0 {
      assert a[..n] == a[..n + 1][..n] == b[..n];
      RangesCausal(ar, a, b, n - 1);
      assert a[n] == a[..n + 1][n] && a[n - 1] == a[..n + 1][n - 1];
      assert b[n] == b[..n + 1][n] && b[n - 1] == b[..n + 1][n - 1];
    }
  }

  /** Two series that agree up to index `i` have the same ATR there, however they continue. */
  lemma {:induction false} AtrCausal(ar: Arith, a: seq<Candle>, b: seq<Candle>, period: nat, i: nat)
    requires period >= 1 && i < |a| && i < |b| && a[..i + 1] == b[..i + 1]
    ensures AtrAt(ar, a, period, i) == AtrAt(ar, b, period, i)
  {
    if i >= period {
      assert a[..i] == a[..i + 1][..i] == b[..i];
      if i == period {
        RangesCausal(ar, a, b, period);
      } else {
        AtrCausal(ar, a, b, period, i - 1);
        assert a[i] == a[..i + 1][i] && a[i - 1] == a[..i + 1][i - 1];
        assert b[i] == b[..i + 1][i] && b[i - 1] == b[..i + 1][i - 1];
      }
    }
  }

  // ---- streaming ATR

  datatype AtrState = AtrState(prevClose: Option<real>, seedRanges: seq<real>, value: Option<real>)

  const ATR_START: AtrState := AtrState(None, [], None)

  function AtrUpdate(ar: Arith, period: nat, s: AtrState, c: Candle): AtrState {
    if s.prevClose.None? then s.(prevClose := Some(c.close))
    else
      var tr := TrueRange(ar, s.prevClose.value, c);
      if s.value.Some? then
        AtrState(Some(c.close), s.seedRanges, Some(Wilder(ar, s.value.value, period, tr)))
      else
        var seeds := s.seedRanges + [tr];
        if |seeds| < period then AtrState(Some(c.close), seeds, None)
        else AtrState(Some(c.close), [], Some(ar.Div(ar.Sum(seeds), period as real)))
  }

  function AtrFeed(ar: Arith, period: nat, candles: seq<Candle>): AtrState {
    if candles == [] then ATR_START
    else AtrUpdate(ar, period, AtrFeed(ar, period, candles[..|candles| - 1]), candles[|candles| - 1])
  }

  class AtrTracker {
    const ar: Arith
    const period: nat
    var prevClose: Option<real>
    var seedRanges: seq<real>
    var value: Option<real>

    function View(): AtrState
      reads this
    {
      AtrState(prevClose, seedRanges, value)
    }

    constructor (ar: Arith, period: nat)
      requires period >= 1
      ensures this.ar == ar && this.period == period && View() == ATR_START
    {
      this.ar, this.period := ar, period;
      prevClose, seedRanges, value := None, [], None;
    }

    method Update(c: Candle) returns (r: Option<real>)
      modifies this
      ensures View() == AtrUpdate(ar, period, old(View()), c)
      ensures r == if old(prevClose).None? then None else value
    {
      if prevClose.None? {
        prevClose := Some(c.close);
        return None;
      }
      var tr := TrueRange(ar, prevClose.value, c);
      prevClose := Some(c.close);
      if value.Some? {
        value := Some(Wilder(ar, value.value, period, tr));
        return value;
      }
      seedRanges := seedRanges + [tr];
      if |seedRanges| < period {
        return None;
      }
      value := Some(ar.Div(ar.Sum(seedRanges), period as real));
      seedRanges := [];
      return value;
    }
  }

  /** What the tracker holds after the first `n` candles. */
  predicate AtrHolds(ar: Arith, period: nat, candles: seq<Candle>, n: nat, s: AtrState)
    requires period >= 1 && n <= |candles|
  {
    if n == 0 then s == ATR_START
    else
      && s.prevClose == Some(candles[n - 1].close)
      && s.value == AtrAt(ar, candles, period, n - 1)
      && s.seedRanges == (if n <= period then TrueRanges(ar, candles, n - 1) else [])
  }

  lemma {:induction false} AtrStep(ar: Arith, period: nat, candles: seq<Candle>, n: nat, s: AtrState)
    requires period >= 1 && n < |candles| && AtrHolds(ar, period, candles, n, s)
    ensures AtrHolds(ar, period, candles, n + 1, AtrUpdate(ar, period, s, candles[n]))
  {
  }

  /** The tracker's memory after any number of candles. */
  lemma {:induction false} AtrMemory(ar: Arith, period: nat, candles: seq<Candle>, n: nat)
    requires period >= 1 && n <= |candles|
    ensures AtrHolds(ar, period, candles, n, AtrFeed(ar, period, candles[..n]))
  {
    if n > 0 {
      assert candles[..n][..n - 1] == candles[..n - 1];
      AtrMemory(ar, period, candles, n - 1);
      AtrStep(ar, period, candles, n - 1, AtrFeed(ar, period, candles[..n - 1]));
    }
  }

  /** Streaming equals batch: after the candle at index `i` the tracker holds the series' ATR at `i`, bit for bit
      under any arithmetic, warm-up included. */
  lemma {:induction false} AtrStreamsTheSeries(ar: Arith, period: nat, candles: seq<Candle>, i: nat)
    requires period >= 1 && i < |candles|
    ensures AtrFeed(ar, period, candles[..i + 1]).value == AtrAt(ar, candles, period, i)
  {
    AtrMemory(ar, period, candles, i + 1);
  }
}
