/** One strategy for several symbols: exactly when the context a session stores is what recomputing the stream gives. */
module SharedStrategy {
  import opened Numerics
  import opened Indicators
  import opened IndicatorBounds
  import opened PaperTrading
  import opened Runner
  import opened RunnerRecovery
  import PaperSafety
  import S = Strategy
  import Risk

  /** The same streams in the same order, whatever the candles. */
  predicate SameSymbols(ds: seq<Delivery>, es: seq<Delivery>) {
    |ds| == |es| && forall i :: 0 <= i < |ds| ==> ds[i].symbol == es[i].symbol
  }

  /** The candle before the last is of the last one's symbol too. */
  predicate TwoInARow(ds: seq<Delivery>) {
    |ds| >= 2 && ds[|ds| - 2].symbol == ds[|ds| - 1].symbol
  }

  /** Only one symbol so far, or everything the strategy reads is still warming up. An average over one close has no
      memory, and an RSI over one step needs no more than two candles of the symbol in a row. */
  predicate Unmixed(cfg: S.StrategyConfig, ds: seq<Delivery>)
    requires ds != []
  {
    || OneSymbol(ds, ds[|ds| - 1].symbol)
    || (&& (|ds| < cfg.emaFast || cfg.emaFast == 1)
        && (|ds| < cfg.emaSlow || cfg.emaSlow == 1)
        && (|ds| <= cfg.rsiPeriod || (cfg.rsiPeriod == 1 && TwoInARow(ds))))
  }

  // ---- a symbol's own closes

  function Own(ds: seq<Delivery>): (r: seq<Candle>)
    requires ds != []
    ensures r != [] && |r| <= |ds| && r[|r| - 1] == ds[|ds| - 1].candle
  {
    CandlesOfSymbol(ds, ds[|ds| - 1].symbol)
  }

  lemma {:induction false} FewerOwn(ds: seq<Delivery>, symbol: string)
    requires !OneSymbol(ds, symbol)
    ensures |OfSymbol(ds, symbol)| < |ds|
  {
    var front := ds[..|ds| - 1];
    if ds[|ds| - 1].symbol == symbol {
      FewerOwn(front, symbol);
    }
  }

  lemma {:induction false} OwnIsOne(ds: seq<Delivery>)
    requires ds != [] && OneSymbol(ds, ds[|ds| - 1].symbol)
    ensures Own(ds) == CandlesOf(ds)
  {
    OnlyItsSymbol(ds, ds[|ds| - 1].symbol);
  }

  lemma {:induction false} OwnBefore(ds: seq<Delivery>)
    requires TwoInARow(ds)
    ensures |Own(ds)| >= 2 && Own(ds)[|Own(ds)| - 2] == ds[|ds| - 2].candle
  {
    var symbol, front := ds[|ds| - 1].symbol, ds[..|ds| - 1];
    assert OfSymbol(ds, symbol) == OfSymbol(front, symbol) + [ds[|ds| - 1]];
  }

  /** A property of all candles of a symbol holds of its own closes. */
  lemma {:induction false} OwnCloses(ds: seq<Delivery>, symbol: string, lo: real, hi: real)
    requires forall i :: 0 <= i < |ds| && ds[i].symbol == symbol ==> lo <= ds[i].candle.close <= hi
    ensures Within(Closes(CandlesOfSymbol(ds, symbol)), lo, hi)
  {
    if ds != [] {
      OwnCloses(ds[..|ds| - 1], symbol, lo, hi);
    }
  }

  predicate Rising(values: seq<real>) {
    forall i, j :: 0 <= i < j < |values| ==> values[i] < values[j]
  }

  lemma {:induction false} OwnRising(ds: seq<Delivery>, symbol: string)
    requires forall i :: 0 <= i < |ds| && ds[i].symbol == symbol ==> ds[i].candle.close == i as real
    ensures Rising(Closes(CandlesOfSymbol(ds, symbol)))
  {
    if ds != [] {
      var front, n := ds[..|ds| - 1], |ds| - 1;
      OwnRising(front, symbol);
      if n > 0 {
        OwnCloses(front, symbol, 0.0, (n - 1) as real);
      }
    }
  }

  // ---- the parts of a context

  /** Signal reason, averages and RSI at the last of some closes. */
  datatype Reading = Reading(fast: Option<real>, slow: Option<real>, rsi: Option<real>)

  function ReadingOf(ar: Arith, cfg: S.StrategyConfig, closes: seq<real>): Reading
    requires cfg.Valid() && closes != []
  {
    var i := |closes| - 1;
    Reading(EmaAt(ar, closes, cfg.emaFast, i), EmaAt(ar, closes, cfg.emaSlow, i), RsiAt(ar, closes, cfg.rsiPeriod, i))
  }

  function Reason(ar: Arith, cfg: S.StrategyConfig, closes: seq<real>): string
    requires cfg.Valid() && closes != []
  {
    S.BatchSignal(ar, cfg, closes, |closes| - 1, 0).reason
  }

  lemma {:induction false} StrategyParts(rt: Runtime, candles: seq<Candle>)
    requires rt.Valid() && candles != []
    ensures
      var c, closes := BatchContext(rt, candles, |candles| - 1), Closes(candles);
      && Reading(c.emaFast, c.emaSlow, c.rsi) == ReadingOf(rt.setup.ar, rt.strategy, closes)
      && c.signalReason == Reason(rt.setup.ar, rt.strategy, closes)
  {
    hide EmaAt, RsiAt, AtrAt, LastWindow;
  }

  /** Two contexts of one candle agree exactly if their strategy's parts do. */
  lemma {:induction false} ContextsAgree(rt: Runtime, ds: seq<Delivery>)
    requires rt.Valid() && ds != []
    ensures
      var ar, cfg, all, own := rt.setup.ar, rt.strategy, Closes(CandlesOf(ds)), Closes(Own(ds));
      StoredContext(rt, ds) == RecomputedContext(rt, ds)
      <==> ReadingOf(ar, cfg, all) == ReadingOf(ar, cfg, own) && Reason(ar, cfg, all) == Reason(ar, cfg, own)
  {
    hide BatchContext, ReadingOf, Reason, CandlesOfSymbol;
    StrategyParts(rt, CandlesOf(ds));
    StrategyParts(rt, Own(ds));
  }

  // ---- sufficient: the readings agree

  lemma {:induction false} MemorylessEma(values: seq<real>, i: nat)
    requires i < |values|
    ensures EmaAt(Exact, values, 1, i) == Some(values[i])
  {
    if i == 0 {
      SingleTotal(values[..1]);
    } else {
      NoMemory(EmaAt(Exact, values, 1, i - 1).GetOr(0.0), values[i]);
    }
  }

  lemma {:induction false} SingleTotal(xs: seq<real>)
    requires |xs| == 1
    ensures Total(xs) == xs[0]
  {
    assert xs[..0] == [];
  }

  lemma {:induction false} NoMemory(prev: real, x: real)
    ensures (2.0 / (1 + 1) as real) * x + (1.0 - 2.0 / (1 + 1) as real) * prev == x
    ensures Wilder(Exact, prev, 1, x) == x
  {
    var alpha := 2.0 / (1 + 1) as real;
    assert alpha == 1.0;
  }

  lemma {:induction false} OneStepChange(values: seq<real>, i: nat)
    requires 1 <= i < |values|
    ensures AvgGain(Exact, values, 1, i) == Gain(Exact, values[i - 1], values[i])
    ensures AvgLoss(Exact, values, 1, i) == Loss(Exact, values[i - 1], values[i])
  {
    var gain, loss := Gain(Exact, values[i - 1], values[i]), Loss(Exact, values[i - 1], values[i]);
    if i == 1 {
      assert Gains(Exact, values, 0) == [] && Losses(Exact, values, 0) == [];
      SingleTotal(Gains(Exact, values, 1));
      SingleTotal(Losses(Exact, values, 1));
    } else {
      NoMemory(AvgGain(Exact, values, 1, i - 1), gain);
      NoMemory(AvgLoss(Exact, values, 1, i - 1), loss);
    }
  }

  lemma {:induction false} SameLastStep(a: seq<real>, b: seq<real>)
    requires |a| >= 2 && |b| >= 2 && a[|a| - 1] == b[|b| - 1] && a[|a| - 2] == b[|b| - 2]
    ensures RsiAt(Exact, a, 1, |a| - 1) == RsiAt(Exact, b, 1, |b| - 1)
  {
    OneStepChange(a, |a| - 1);
    OneStepChange(b, |b| - 1);
  }

  lemma {:induction false} EmaAgrees(all: seq<real>, own: seq<real>, period: nat)
    requires 0 < |own| <= |all| && own[|own| - 1] == all[|all| - 1]
    requires period >= 1 && (|all| < period || period == 1)
    ensures EmaAt(Exact, all, period, |all| - 1) == EmaAt(Exact, own, period, |own| - 1)
    ensures period > 1 ==> EmaAt(Exact, all, period, |all| - 1).None?
  {
    if period == 1 {
      MemorylessEma(all, |all| - 1);
      MemorylessEma(own, |own| - 1);
    }
  }

  /** The signal is the same too: warming up, or two equal averages that cannot cross. */
  lemma {:induction false} ReasonAgrees(cfg: S.StrategyConfig, all: seq<real>, own: seq<real>)
    requires cfg.Valid() && 0 < |own| <= |all| && own[|own| - 1] == all[|all| - 1]
    requires |all| < cfg.emaFast || cfg.emaFast == 1
    requires |all| < cfg.emaSlow || cfg.emaSlow == 1
    requires
      || |all| <= cfg.rsiPeriod
      || (cfg.rsiPeriod == 1 && |own| >= 2 && own[|own| - 2] == all[|all| - 2])
    ensures ReadingOf(Exact, cfg, all) == ReadingOf(Exact, cfg, own)
    ensures Reason(Exact, cfg, all) == Reason(Exact, cfg, own)
  {
    hide EmaAt, RsiAt;
    EmaAgrees(all, own, cfg.emaFast);
    EmaAgrees(all, own, cfg.emaSlow);
    RsiWarm(Exact, all, cfg.rsiPeriod, |all| - 1);
    RsiWarm(Exact, own, cfg.rsiPeriod, |own| - 1);
    if |all| > cfg.rsiPeriod {
      SameLastStep(all, own);
    }
    if cfg.emaFast == 1 == cfg.emaSlow && |all| > cfg.rsiPeriod {
      MemorylessEma(all, |all| - 2);
      MemorylessEma(own, |own| - 2);
    }
  }

  /** Unmixed streams store what recomputing gives, whatever their candles. */
  lemma {:induction false} UnmixedAgrees(rt: Runtime, ds: seq<Delivery>)
    requires rt.Valid() && rt.setup.ar.Exact? && ds != [] && Unmixed(rt.strategy, ds)
    ensures StoredContext(rt, ds) == RecomputedContext(rt, ds)
  {
    hide StoredContext, RecomputedContext, ReadingOf, Reason;
    ContextsAgree(rt, ds);
    if OneSymbol(ds, ds[|ds| - 1].symbol) {
      OwnIsOne(ds);
    } else {
      if TwoInARow(ds) {
        OwnBefore(ds);
      }
      ReasonAgrees(rt.strategy, Closes(CandlesOf(ds)), Closes(Own(ds)));
    }
  }

  // ---- necessary: candles for the same symbols that tell the two apart

  /** One candle per delivery, at times 0, 1, 2, with the given closes. */
  function Priced(ds: seq<Delivery>, closes: seq<real>): (r: seq<Delivery>)
    requires |closes| == |ds|
    ensures SameSymbols(ds, r) && Timed(r)
    ensures forall i :: 0 <= i < |r| ==> r[i].candle.close == closes[i]
  {
    seq(|ds|, i requires 0 <= i < |ds| => At(ds[i], i, closes[i]))
  }

  function At(d: Delivery, ts: int, close: real): Delivery {
    Delivery(d.symbol, d.timeframe, Candle(ts, close, close, close, close, 0.0, 0.0), false)
  }

  /** Later deliveries have later candles. */
  predicate Timed(ds: seq<Delivery>) {
    forall i, j :: 0 <= i < j < |ds| ==> ds[i].candle.ts < ds[j].candle.ts
  }

  /** Closes of 1 for the last symbol and of 2 for every other. */
  function Levels(ds: seq<Delivery>): (r: seq<real>)
    requires ds != []
    ensures |r| == |ds|
    ensures forall i :: 0 <= i < |ds| ==> r[i] == if ds[i].symbol == ds[|ds| - 1].symbol then 1.0 else 2.0
  {
    seq(|ds|, i requires 0 <= i < |ds| => if ds[i].symbol == ds[|ds| - 1].symbol then 1.0 else 2.0)
  }

  /** Rising closes for the last symbol, and one above them all for every other. */
  function Climb(ds: seq<Delivery>): (r: seq<real>)
    requires ds != []
    ensures |r| == |ds|
    ensures forall i :: 0 <= i < |ds| ==>
      r[i] == if ds[i].symbol == ds[|ds| - 1].symbol then i as real else |ds| as real
  {
    seq(|ds|, i requires 0 <= i < |ds| => if ds[i].symbol == ds[|ds| - 1].symbol then i as real else |ds| as real)
  }

  /** The last delivery of another symbol. */
  function LastForeign(ds: seq<Delivery>, symbol: string): (j: nat)
    requires !OneSymbol(ds, symbol)
    ensures j < |ds| && ds[j].symbol != symbol && forall i :: j < i < |ds| ==> ds[i].symbol == symbol
  {
    if ds[|ds| - 1].symbol != symbol then |ds| - 1 else LastForeign(ds[..|ds| - 1], symbol)
  }

  lemma {:induction false} TotalAbove(xs: seq<real>, k: nat)
    requires k < |xs| && xs[k] > 1.0 && forall i :: 0 <= i < |xs| ==> xs[i] >= 1.0
    ensures Total(xs) > |xs| as real
  {
    var front := xs[..|xs| - 1];
    if k == |front| {
      TotalAtLeast(front);
    } else {
      TotalAbove(front, k);
    }
  }

  lemma {:induction false} TotalAtLeast(xs: seq<real>)
    requires forall i :: 0 <= i < |xs| ==> xs[i] >= 1.0
    ensures Total(xs) >= |xs| as real
  {
    if xs != [] {
      TotalAtLeast(xs[..|xs| - 1]);
    }
  }

  lemma {:induction false} QuotientAbove(x: real, d: real)
    requires d > 0.0 && x > d
    ensures x / d > 1.0
  {
    var q := x / d;
    assert q * d == x;
    if q <= 1.0 {
      ScaleMonotone(q, 1.0, d);
      assert false;
    }
  }

  lemma {:induction false} Excess(a: real, x: real)
    ensures a * (x - 1.0) == a * x - a
  {
  }

  lemma {:induction false} SomeExcess(a: real, b: real, u: real, v: real)
    requires a > 0.0 && b > 0.0 && u >= 0.0 && v >= 0.0 && (u > 0.0 || v > 0.0)
    ensures a * u + b * v > 0.0
  {
    assert a * u >= 0.0 && b * v >= 0.0;
    if u > 0.0 {
      assert a * u > 0.0;
    } else {
      assert b * v > 0.0;
    }
  }

  lemma {:induction false} ExcessBlend(a: real, b: real, x: real, y: real)
    requires a > 0.0 && b > 0.0 && a + b == 1.0 && x >= 1.0 && y >= 1.0 && (x > 1.0 || y > 1.0)
    ensures a * x + b * y > 1.0
  {
    SomeExcess(a, b, x - 1.0, y - 1.0);
    Excess(a, x);
    Excess(b, y);
    var p, q := a * x, b * y;
    assert (p - a) + (q - b) > 0.0;
  }

  lemma {:induction false} BlendAbove(alpha: real, x: real, prev: real)
    requires 0.0 < alpha < 1.0 && x >= 1.0 && prev >= 1.0 && (x > 1.0 || prev > 1.0)
    ensures alpha * x + (1.0 - alpha) * prev > 1.0
  {
    ExcessBlend(alpha, 1.0 - alpha, x, prev);
  }

  /** An average over more than one close never forgets one above the rest. */
  lemma {:induction false} EmaAbove(values: seq<real>, period: nat, i: nat, k: nat)
    requires 2 <= period <= i + 1 <= |values| && k <= i && values[k] > 1.0
    requires Within(values, 1.0, 2.0)
    ensures EmaAt(Exact, values, period, i).Some? && EmaAt(Exact, values, period, i).value > 1.0
  {
    if i + 1 == period {
      TotalAbove(values[..period], k);
      QuotientAbove(Total(values[..period]), period as real);
    } else {
      var alpha := 2.0 / (period + 1) as real;
      assert 0.0 < alpha < 1.0 by {
        assert alpha * (period + 1) as real == 2.0;
      }
      EmaWithinRange(values, period, i - 1, 1.0, 2.0);
      if k < i {
        EmaAbove(values, period, i - 1, k);
      }
      BlendAbove(alpha, values[i], EmaAt(Exact, values, period, i - 1).value);
    }
  }

  /** On these closes any warmed-up average over more than one close tells the streams apart. */
  lemma {:induction false} LevelsDiffer(ds: seq<Delivery>, period: nat)
    requires ds != [] && !OneSymbol(ds, ds[|ds| - 1].symbol) && 2 <= period <= |ds|
    ensures
      var es := Priced(ds, Levels(ds));
      var all, own := Closes(CandlesOf(es)), Closes(Own(es));
      EmaAt(Exact, all, period, |all| - 1) != EmaAt(Exact, own, period, |own| - 1)
  {
    hide EmaAt, CandlesOfSymbol;
    var es, symbol := Priced(ds, Levels(ds)), ds[|ds| - 1].symbol;
    var all, own := Closes(CandlesOf(es)), Closes(Own(es));
    EmaAbove(all, period, |all| - 1, LastForeign(ds, symbol));
    OwnCloses(es, symbol, 1.0, 1.0);
    assert own[..|own|] == own;
    EmaWithinRange(own, period, |own| - 1, 1.0, 1.0);
  }

  // ---- the RSI half

  lemma {:induction false} PositiveTotal(xs: seq<real>, k: nat)
    requires k < |xs| && xs[k] > 0.0 && forall i :: 0 <= i < |xs| ==> xs[i] >= 0.0
    ensures Total(xs) > 0.0
  {
    var front := xs[..|xs| - 1];
    if k == |front| {
      NonNegativeTotal(front);
    } else {
      PositiveTotal(front, k);
    }
  }

  lemma {:induction false} PositiveQuotient(x: real, d: real)
    requires x > 0.0 && d > 0.0
    ensures x / d > 0.0
  {
    var q := x / d;
    assert q * d == x;
  }

  lemma {:induction false} WilderPositive(avg: real, period: nat, x: real)
    requires period >= 1 && avg >= 0.0 && x >= 0.0 && (x > 0.0 || (avg > 0.0 && period >= 2))
    ensures Wilder(Exact, avg, period, x) > 0.0
  {
    var k := (period as int - 1) as real;
    assert avg * k >= 0.0;
    if x == 0.0 {
      assert avg * k > 0.0;
    }
    PositiveQuotient(avg * k + x, period as real);
  }

  lemma {:induction false} ChangeAt(values: seq<real>, n: nat, k: nat)
    requires 1 <= k <= n < |values|
    ensures Gains(Exact, values, n)[k - 1] == Gain(Exact, values[k - 1], values[k])
    ensures Losses(Exact, values, n)[k - 1] == Loss(Exact, values[k - 1], values[k])
  {
    if k < n {
      ChangeAt(values, n - 1, k);
    }
  }

  /** A smoothed loss over more than one step never forgets a fall; over one step it sees the last. */
  lemma {:induction false} LossRemembered(values: seq<real>, period: nat, i: nat, k: nat)
    requires 1 <= period <= i < |values| && 1 <= k <= i && values[k] < values[k - 1] && (period >= 2 || k == i)
    ensures AvgLoss(Exact, values, period, i) > 0.0
  {
    if i == period {
      ChangesNonNegative(values, period);
      ChangeAt(values, period, k);
      PositiveTotal(Losses(Exact, values, period), k - 1);
      PositiveQuotient(Total(Losses(Exact, values, period)), period as real);
    } else {
      AveragesNonNegative(values, period, i - 1);
      if k < i {
        LossRemembered(values, period, i - 1, k);
      }
      WilderPositive(AvgLoss(Exact, values, period, i - 1), period, Loss(Exact, values[i - 1], values[i]));
    }
  }

  lemma {:induction false} OneMoreLoss(values: seq<real>, n: nat)
    requires 0 < n < |values|
    ensures Total(Losses(Exact, values, n))
      == Total(Losses(Exact, values, n - 1)) + Loss(Exact, values[n - 1], values[n])
  {
    assert Losses(Exact, values, n)[..n - 1] == Losses(Exact, values, n - 1);
  }

  lemma {:induction false} RiseIsNoLoss(values: seq<real>, n: nat)
    requires Rising(values) && 0 < n < |values|
    ensures Loss(Exact, values[n - 1], values[n]) == 0.0 && Gain(Exact, values[n - 1], values[n]) > 0.0
  {
  }

  lemma {:induction false} NoLossInRise(values: seq<real>, n: nat)
    requires Rising(values) && n < |values|
    ensures Total(Losses(Exact, values, n)) == 0.0
  {
    hide Rising, Loss;
    if n > 0 {
      NoLossInRise(values, n - 1);
      OneMoreLoss(values, n);
      RiseIsNoLoss(values, n);
    }
  }

  lemma {:induction false} NothingSmoothed(period: nat)
    requires period >= 1
    ensures Wilder(Exact, 0.0, period, 0.0) == 0.0 && Exact.Div(0.0, period as real) == 0.0
  {
  }

  lemma {:induction false} RiseOnlyGains(values: seq<real>, period: nat, i: nat)
    requires Rising(values) && 1 <= period <= i < |values|
    ensures AvgLoss(Exact, values, period, i) == 0.0 && AvgGain(Exact, values, period, i) > 0.0
  {
    NothingSmoothed(period);
    if i == period {
      GainsFromStart(values, period);
    } else {
      hide Rising, Loss, Gain, Wilder, Gains, Losses;
      RiseOnlyGains(values, period, i - 1);
      RiseIsNoLoss(values, i);
      WilderPositive(AvgGain(Exact, values, period, i - 1), period, Gain(Exact, values[i - 1], values[i]));
    }
  }

  lemma {:induction false} GainsFromStart(values: seq<real>, period: nat)
    requires Rising(values) && 1 <= period < |values|
    ensures AvgLoss(Exact, values, period, period) == 0.0 && AvgGain(Exact, values, period, period) > 0.0
  {
    hide Rising, Loss, Gain, Gains, Losses;
    NoLossInRise(values, period);
    NothingSmoothed(period);
    ChangesNonNegative(values, period);
    ChangeAt(values, period, period);
    RiseIsNoLoss(values, period);
    PositiveTotal(Gains(Exact, values, period), period - 1);
    PositiveQuotient(Total(Gains(Exact, values, period)), period as real);
  }

  lemma {:induction false} ClimbFalls(ds: seq<Delivery>, period: nat)
    requires ds != [] && !OneSymbol(ds, ds[|ds| - 1].symbol) && 1 <= period < |ds|
    requires period >= 2 || !TwoInARow(ds)
    ensures
      var all := Closes(CandlesOf(Priced(ds, Climb(ds))));
      |all| == |ds| && AvgLoss(Exact, all, period, |all| - 1) > 0.0
  {
    hide AvgLoss;
    var symbol := ds[|ds| - 1].symbol;
    var all := Closes(CandlesOf(Priced(ds, Climb(ds))));
    var k := LastForeign(ds, symbol) + 1;
    assert ds[k].symbol == symbol && ds[k - 1].symbol != symbol;
    assert all[k] == k as real && all[k - 1] == |ds| as real;
    LossRemembered(all, period, |all| - 1, k);
  }

  lemma {:induction false} ClimbRises(ds: seq<Delivery>)
    requires ds != []
    ensures Rising(Closes(Own(Priced(ds, Climb(ds)))))
  {
    OwnRising(Priced(ds, Climb(ds)), ds[|ds| - 1].symbol);
  }

  lemma {:induction false} RisingRsi(own: seq<real>, period: nat)
    requires own != [] && period >= 1 && Rising(own)
    ensures RsiAt(Exact, own, period, |own| - 1) in {None, Some(100.0)}
  {
    hide RsiAt, AvgGain, AvgLoss;
    RsiIsPercentage(own, period, |own| - 1);
    if |own| > period {
      RiseOnlyGains(own, period, |own| - 1);
    }
  }

  /** On these closes the RSI of the symbol's own candles is 100 or not there yet; the fall back from another symbol
      keeps that of all candles below. */
  lemma {:induction false} ClimbDiffers(ds: seq<Delivery>, period: nat)
    requires ds != [] && !OneSymbol(ds, ds[|ds| - 1].symbol) && 1 <= period < |ds|
    requires period >= 2 || !TwoInARow(ds)
    ensures
      var es := Priced(ds, Climb(ds));
      var all, own := Closes(CandlesOf(es)), Closes(Own(es));
      RsiAt(Exact, all, period, |all| - 1) != RsiAt(Exact, own, period, |own| - 1)
  {
    hide RsiAt, AvgGain, AvgLoss, CandlesOfSymbol, Rising, Climb;
    var es := Priced(ds, Climb(ds));
    var all, own := Closes(CandlesOf(es)), Closes(Own(es));
    ClimbFalls(ds, period);
    RsiIsPercentage(all, period, |all| - 1);
    ClimbRises(ds);
    RisingRsi(own, period);
  }

  lemma {:induction false} MixedReadings(cfg: S.StrategyConfig, ds: seq<Delivery>) returns (closes: seq<real>)
    requires cfg.Valid() && ds != [] && !Unmixed(cfg, ds)
    ensures |closes| == |ds| && forall i :: 0 <= i < |closes| ==> closes[i] >= 0.0
    ensures
      var es := Priced(ds, closes);
      ReadingOf(Exact, cfg, Closes(CandlesOf(es))) != ReadingOf(Exact, cfg, Closes(Own(es)))
  {
    hide EmaAt, RsiAt, Own, Priced, Levels, Climb;
    closes := Levels(ds);
    if |ds| >= cfg.emaFast >= 2 {
      LevelsDiffer(ds, cfg.emaFast);
    } else if |ds| >= cfg.emaSlow >= 2 {
      LevelsDiffer(ds, cfg.emaSlow);
    } else {
      closes := Climb(ds);
      ClimbDiffers(ds, cfg.rsiPeriod);
    }
  }

  /** Mixed streams, with candles that tell stored from recomputed. */
  lemma {:induction false} MixedDiffers(rt: Runtime, ds: seq<Delivery>) returns (closes: seq<real>)
    requires rt.Valid() && rt.setup.ar.Exact? && ds != [] && !Unmixed(rt.strategy, ds)
    ensures |closes| == |ds| && forall i :: 0 <= i < |closes| ==> closes[i] >= 0.0
    ensures StoredContext(rt, Priced(ds, closes)) != RecomputedContext(rt, Priced(ds, closes))
  {
    hide StoredContext, RecomputedContext, ReadingOf, Own, Reason, Priced, Levels, Climb;
    closes := MixedReadings(rt.strategy, ds);
    ContextsAgree(rt, Priced(ds, closes));
  }

  ghost predicate AlwaysRecomputed(rt: Runtime, ds: seq<Delivery>)
    requires rt.Valid() && ds != []
  {
    forall es :: SameSymbols(ds, es) ==> StoredContext(rt, es) == RecomputedContext(rt, es)
  }

  lemma {:induction false} UnmixedBySymbols(cfg: S.StrategyConfig, ds: seq<Delivery>, es: seq<Delivery>)
    requires ds != [] && SameSymbols(ds, es) && Unmixed(cfg, ds)
    ensures Unmixed(cfg, es)
  {
  }

  /** The exact condition, read off the symbols: what is stored for the last of some candles is what recomputing its
      stream gives, whatever the candles, if and only if the streams are not mixed. */
  lemma {:induction false} RecomputedIffUnmixed(rt: Runtime, ds: seq<Delivery>)
    requires rt.Valid() && rt.setup.ar.Exact? && ds != []
    ensures AlwaysRecomputed(rt, ds) <==> Unmixed(rt.strategy, ds)
  {
    hide StoredContext, RecomputedContext, Unmixed;
    if Unmixed(rt.strategy, ds) {
      forall es | SameSymbols(ds, es)
        ensures StoredContext(rt, es) == RecomputedContext(rt, es)
      {
        UnmixedBySymbols(rt.strategy, ds, es);
        UnmixedAgrees(rt, es);
      }
    } else {
      var closes := MixedDiffers(rt, ds);
      assert SameSymbols(ds, Priced(ds, closes));
    }
  }

  // ---- the same of sessions

  /** What a runner on a safe setup is like between candles in time order. */
  predicate Ready(rt: Runtime, st: State, ds: seq<Delivery>) {
    && st.atr.Keys == rt.symbols && st.regimes.Keys == rt.symbols
    && PaperSafety.Solvent(rt.setup, st.engine)
    && st.engine.lastTs == (if ds == [] then None else Some(ds[|ds| - 1].candle.ts))
    && (forall k :: k in st.lastCandle ==> ds != [] && st.lastCandle[k].ts <= ds[|ds| - 1].candle.ts)
  }

  lemma {:induction false} StepReady(su: Setup, st: EngineState, tick: Tick)
    requires PaperSafety.SafeSetup(su) && PaperSafety.Solvent(su, st) && tick.price >= 0.0
    requires st.lastTs.None? || st.lastTs.value <= tick.ts
    ensures SessionStep(su, st, tick).Some?
    ensures
      var next := SessionStep(su, st, tick).value.0;
      PaperSafety.Solvent(su, next) && next.lastTs == Some(tick.ts)
  {
    hide OnPrice;
    PaperSafety.TickKeepsSolvent(su, st, tick.killActive, tick.decision, tick.price, tick.atr, tick.ts);
    PaperSafety.TickStampsClock(su, st, tick.killActive, tick.decision, tick.price, tick.atr, tick.ts);
    var next := OnPrice(su, st, tick.killActive, tick.decision, tick.price, tick.atr, tick.ts).0;
    PaperSafety.MarkingKeepsSolvent(su, next, tick.price);
  }

  lemma {:induction false} HandleReady(rt: Runtime, st: State, ds: seq<Delivery>, d: Delivery)
    requires rt.Valid() && PaperSafety.SafeSetup(rt.setup) && Ready(rt, st, ds)
    requires d.symbol in rt.symbols && d.candle.close >= 0.0
    requires ds != [] ==> ds[|ds| - 1].candle.ts < d.candle.ts
    ensures Handle(rt, st, d).Accepted? && Ready(rt, Handle(rt, st, d).state, ds + [d])
  {
    hide SessionStep, PaperSafety.Solvent, PaperSafety.SafeSetup, AtrUpdate, S.Observe, S.SignalOf, ObserveRegime;
    var strategy := S.Observe(rt.setup.ar, rt.strategy, st.strategy, d.candle.close);
    var signal := S.SignalOf(rt.strategy, strategy, d.candle.ts);
    var reading := AtrReading(st.atr[d.symbol], AtrUpdate(rt.setup.ar, ATR_PERIOD, st.atr[d.symbol], d.candle));
    StepReady(rt.setup, st.engine,
              Tick(Decision(signal.action, Risk.Medium), d.candle.close, reading, d.candle.ts, d.killActive));
  }

  lemma {:induction false} TimedFront(ds: seq<Delivery>)
    requires Timed(ds) && ds != []
    ensures Timed(ds[..|ds| - 1]) && (|ds| > 1 ==> ds[|ds| - 2].candle.ts < ds[|ds| - 1].candle.ts)
  {
  }

  /** On a safe setup, candles of known symbols in time order are all accepted. */
  lemma {:induction false} AllAccepted(rt: Runtime, ds: seq<Delivery>)
    requires rt.Valid() && PaperSafety.SafeSetup(rt.setup) && Timed(ds)
    requires forall i :: 0 <= i < |ds| ==> ds[i].symbol in rt.symbols && ds[i].candle.close >= 0.0
    ensures RunLive(rt, ds).Some? && RunLive(rt, ds).value.accepted == ds
    ensures Ready(rt, RunLive(rt, ds).value.state, ds)
  {
    hide Handle, Ready, Timed, PaperSafety.SafeSetup;
    if ds == [] {
      FreshReady(rt);
    } else {
      var front, d := ds[..|ds| - 1], ds[|ds| - 1];
      TimedFront(ds);
      AllAccepted(rt, front);
      HandleReady(rt, RunLive(rt, front).value.state, front, d);
      assert ds == front + [d];
    }
  }

  lemma {:induction false} FreshReady(rt: Runtime)
    requires PaperSafety.SafeSetup(rt.setup)
    ensures Ready(rt, FreshState(rt), [])
  {
    PaperSafety.FreshSolvent(rt.setup);
  }

  /** A session that took exactly these candles and stored, for the last of them, what recomputing gives. */
  predicate StoresRecomputed(rt: Runtime, ds: seq<Delivery>)
    requires rt.Valid() && ds != []
  {
    RunLive(rt, ds).Some? && RunLive(rt, ds).value.accepted == ds ==>
      var events := RunLive(rt, ds).value.events;
      |events| == |ds| && events[|ds| - 1].context == RecomputedContext(rt, ds)
  }

  lemma {:induction false} LastStored(rt: Runtime, ds: seq<Delivery>)
    requires rt.Valid() && ds != [] && RunLive(rt, ds).Some? && RunLive(rt, ds).value.accepted == ds
    ensures |RunLive(rt, ds).value.events| == |ds|
    ensures RunLive(rt, ds).value.events[|ds| - 1].context == StoredContext(rt, ds)
  {
    StoredContexts(rt, ds, |ds| - 1);
    assert ds[..|ds|] == ds;
  }

  ghost predicate SessionsRecompute(rt: Runtime, ds: seq<Delivery>)
    requires rt.Valid() && ds != []
  {
    forall es :: SameSymbols(ds, es) ==> StoresRecomputed(rt, es)
  }

  /** The exact condition for sessions: on a safe setup, every session that takes candles of these streams in this order
      stores for the last one what recomputing gives if and only if the streams are not mixed. */
  lemma {:induction false} SessionsRecomputeIff(rt: Runtime, ds: seq<Delivery>)
    requires rt.Valid() && PaperSafety.SafeSetup(rt.setup) && ds != []
    requires forall i :: 0 <= i < |ds| ==> ds[i].symbol in rt.symbols
    ensures SessionsRecompute(rt, ds) <==> Unmixed(rt.strategy, ds)
  {
    hide StoredContext, RecomputedContext, Unmixed, RunLive;
    if Unmixed(rt.strategy, ds) {
      forall es | SameSymbols(ds, es)
        ensures StoresRecomputed(rt, es)
      {
        UnmixedBySymbols(rt.strategy, ds, es);
        UnmixedAgrees(rt, es);
        if RunLive(rt, es).Some? && RunLive(rt, es).value.accepted == es {
          LastStored(rt, es);
        }
      }
    } else {
      var closes := MixedDiffers(rt, ds);
      var es := Priced(ds, closes);
      AllAccepted(rt, es);
      LastStored(rt, es);
      assert !StoresRecomputed(rt, es);
    }
  }

  // ---- a mixed session

  /** The default periods on two symbols. */
  const TWO_SYMBOLS: Runtime :=
    Runtime(Setup(Exact, Risk.DEFAULT_RISK, 10.0, 2.0), S.StrategyConfig(20, 50, 14, 80.0), {"A", "B"}, _ => None)

  /** Fourteen candles of one symbol and then one of the other, all at the same price. */
  function Fifteen(): (r: seq<Delivery>)
    ensures |r| == 15
  {
    seq(15, i => Delivery(if i < 14 then "A" else "B", "15m", Candle(i, 100.0, 100.0, 100.0, 100.0, 0.0, 0.0), false))
  }

  lemma {:induction false} OnlyOneB()
    ensures |Own(Fifteen())| == 1 && |CandlesOf(Fifteen())| == 15
  {
    NoneOf(Fifteen()[..14], "B");
  }

  lemma {:induction false} NoneOf(ds: seq<Delivery>, symbol: string)
    requires forall i :: 0 <= i < |ds| ==> ds[i].symbol != symbol
    ensures OfSymbol(ds, symbol) == []
  {
    if ds != [] {
      NoneOf(ds[..|ds| - 1], symbol);
    }
  }

  /** It happens: the very first candle of the second symbol is stored with an RSI, and recomputed without. */
  lemma {:induction false} MixedSessionHappens()
    ensures TWO_SYMBOLS.Valid() && RunLive(TWO_SYMBOLS, Fifteen()).Some?
    ensures
      var live := RunLive(TWO_SYMBOLS, Fifteen()).value;
      && live.accepted == Fifteen() && |live.events| == 15
      && live.events[14].context.rsi.Some? && RecomputedContext(TWO_SYMBOLS, Fifteen()).rsi.None?
  {
    hide RunLive, EmaAt, AtrAt, RsiAt, S.BatchSignal, LastWindow, CandlesOfSymbol;
    var ds := Fifteen();
    AllAccepted(TWO_SYMBOLS, ds);
    LastStored(TWO_SYMBOLS, ds);
    OnlyOneB();
    RsiWarm(Exact, Closes(CandlesOf(ds)), 14, 14);
    RsiWarm(Exact, Closes(Own(ds)), 14, 0);
  }
}
