/** The baseline strategy on streaming trackers, and the crossing rule over whole series it implements. */
module Strategy {
  import opened Numerics
  import opened Portfolio
  import opened Indicators

  datatype StrategyConfig = StrategyConfig(emaFast: nat, emaSlow: nat, rsiPeriod: nat, rsiExit: real) {
    predicate Valid() {
      emaFast >= 1 && emaSlow >= 1 && rsiPeriod >= 1
    }
  }

  datatype Signal = Signal(ts: int, action: Action, reason: string)

  // ---- trackers

  datatype EmaState = EmaState(buffer: seq<real>, prev: Option<real>, current: Option<real>)

  function EmaUpdate(ar: Arith, period: nat, s: EmaState, value: real): EmaState
    requires period >= 1
  {
    if s.current.None? then
      var buffer := s.buffer + [value];
      EmaState(buffer, s.prev, if |buffer| == period then Some(ar.Div(ar.Sum(buffer), period as real)) else None)
    else
      var alpha := ar.Div(2.0, (period + 1) as real);
      EmaState(s.buffer, s.current,
               Some(ar.Add(ar.Mul(alpha, value), ar.Mul(ar.Sub(1.0, alpha), s.current.value))))
  }

  datatype RsiState = RsiState(
    gains: seq<real>,
    losses: seq<real>,
    prevClose: Option<real>,
    avgGain: Option<real>,
    avgLoss: Option<real>,
    prev: Option<real>,
    current: Option<real>)

  function RsiUpdate(ar: Arith, period: nat, s: RsiState, close: real): RsiState
    requires period >= 1
  {
    if s.prevClose.None? then s.(prevClose := Some(close))
    else
      var gain, loss := Gain(ar, s.prevClose.value, close), Loss(ar, s.prevClose.value, close);
      if s.avgGain.None? || s.avgLoss.None? then
        var gains, losses := s.gains + [gain], s.losses + [loss];
        if |gains| == period then
          var g, l := ar.Div(ar.Sum(gains), period as real), ar.Div(ar.Sum(losses), period as real);
          RsiState(gains, losses, Some(close), Some(g), Some(l), s.prev, Some(RsiValue(ar, g, l)))
        else s.(gains := gains, losses := losses, prevClose := Some(close))
      else
        var g, l := Wilder(ar, s.avgGain.value, period, gain), Wilder(ar, s.avgLoss.value, period, loss);
        s.(prevClose := Some(close), avgGain := Some(g), avgLoss := Some(l), prev := s.current,
           current := Some(RsiValue(ar, g, l)))
  }

  const EMA_START: EmaState := EmaState([], None, None)
  const RSI_START: RsiState := RsiState([], [], None, None, None, None, None)

  datatype StrategyState = StrategyState(fast: EmaState, slow: EmaState, rsi: RsiState)

  const STRATEGY_START: StrategyState := StrategyState(EMA_START, EMA_START, RSI_START)

  function Observe(ar: Arith, cfg: StrategyConfig, s: StrategyState, close: real): StrategyState
    requires cfg.Valid()
  {
    StrategyState(EmaUpdate(ar, cfg.emaFast, s.fast, close), EmaUpdate(ar, cfg.emaSlow, s.slow, close),
                  RsiUpdate(ar, cfg.rsiPeriod, s.rsi, close))
  }

  /** The rule, on the previous and current values of both averages and the current RSI. */
  function Rule(
    cfg: StrategyConfig, ts: int, fastPrev: Option<real>, fast: Option<real>, slowPrev: Option<real>,
    slow: Option<real>, rsi: Option<real>): Signal
  {
    if fastPrev.None? || fast.None? || slowPrev.None? || slow.None? || rsi.None? then Signal(ts, Hold, "warmup")
    else if fastPrev.value <= slowPrev.value && fast.value > slow.value then Signal(ts, Buy, "ema_cross_up")
    else if (fastPrev.value >= slowPrev.value && fast.value < slow.value) || rsi.value > cfg.rsiExit then
      Signal(ts, Sell, "ema_cross_down_or_rsi_exit")
    else Signal(ts, Hold, "")
  }

  function SignalOf(cfg: StrategyConfig, s: StrategyState, ts: int): Signal {
    Rule(cfg, ts, s.fast.prev, s.fast.current, s.slow.prev, s.slow.current, s.rsi.current)
  }

  function EmaFeed(ar: Arith, period: nat, values: seq<real>): EmaState
    requires period >= 1
  {
    if values == [] then EMA_START
    else EmaUpdate(ar, period, EmaFeed(ar, period, values[..|values| - 1]), values[|values| - 1])
  }

  function RsiFeed(ar: Arith, period: nat, values: seq<real>): RsiState
    requires period >= 1
  {
    if values == [] then RSI_START
    else RsiUpdate(ar, period, RsiFeed(ar, period, values[..|values| - 1]), values[|values| - 1])
  }

  function StrategyFeed(ar: Arith, cfg: StrategyConfig, closes: seq<real>): StrategyState
    requires cfg.Valid()
  {
    if closes == [] then STRATEGY_START
    else Observe(ar, cfg, StrategyFeed(ar, cfg, closes[..|closes| - 1]), closes[|closes| - 1])
  }

  // ---- the classes

  class EmaTracker {
    const ar: Arith
    const period: nat
    var buffer: seq<real>
    var prev: Option<real>
    var current: Option<real>

    function View(): EmaState
      reads this
    {
      EmaState(buffer, prev, current)
    }

    constructor (ar: Arith, period: nat)
      requires period >= 1
      ensures this.ar == ar && this.period == period && View() == EMA_START
    {
      this.ar, this.period := ar, period;
      buffer, prev, current := [], None, None;
    }

    method Update(value: real)
      requires period >= 1
      modifies this
      ensures View() == EmaUpdate(ar, period, old(View()), value)
    {
      if current.None? {
        buffer := buffer + [value];
        if |buffer| == period {
          current := Some(ar.Div(ar.Sum(buffer), period as real));
        }
      } else {
        var alpha := ar.Div(2.0, (period + 1) as real);
        prev := current;
        current := Some(ar.Add(ar.Mul(alpha, value), ar.Mul(ar.Sub(1.0, alpha), current.value)));
      }
    }
  }

  class RsiTracker {
    const ar: Arith
    const period: nat
    var gains: seq<real>
    var losses: seq<real>
    var prevClose: Option<real>
    var avgGain: Option<real>
    var avgLoss: Option<real>
    var prev: Option<real>
    var current: Option<real>

    function View(): RsiState
      reads this
    {
      RsiState(gains, losses, prevClose, avgGain, avgLoss, prev, current)
    }

    constructor (ar: Arith, period: nat)
      requires period >= 1
      ensures this.ar == ar && this.period == period && View() == RSI_START
    {
      this.ar, this.period := ar, period;
      gains, losses, prevClose, avgGain, avgLoss, prev, current := [], [], None, None, None, None, None;
    }

    method Update(close: real)
      requires period >= 1
      modifies this
      ensures View() == RsiUpdate(ar, period, old(View()), close)
    {
      if prevClose.None? {
        prevClose := Some(close);
        return;
      }
      var change := ar.Sub(close, prevClose.value);
      prevClose := Some(close);
      var gain, loss := Max(change, 0.0), Max(-change, 0.0);
      if avgGain.None? || avgLoss.None? {
        gains, losses := gains + [gain], losses + [loss];
        if |gains| == period {
          var g, l := ar.Div(ar.Sum(gains), period as real), ar.Div(ar.Sum(losses), period as real);
          avgGain, avgLoss, current := Some(g), Some(l), Some(RsiValue(ar, g, l));
        }
      } else {
        prev := current;
        var g, l := Wilder(ar, avgGain.value, period, gain), Wilder(ar, avgLoss.value, period, loss);
        avgGain, avgLoss, current := Some(g), Some(l), Some(RsiValue(ar, g, l));
      }
    }
  }

  class EmaRsiBaseline {
    const ar: Arith
    const cfg: StrategyConfig
    const fast: EmaTracker
    const slow: EmaTracker
    const rsi: RsiTracker

    ghost predicate Valid() {
      && cfg.Valid() && fast != slow
      && fast.ar == slow.ar == rsi.ar == ar
      && fast.period == cfg.emaFast && slow.period == cfg.emaSlow && rsi.period == cfg.rsiPeriod
    }

    function View(): StrategyState
      reads fast, slow, rsi
    {
      StrategyState(fast.View(), slow.View(), rsi.View())
    }

    constructor (ar: Arith, cfg: StrategyConfig)
      requires cfg.Valid()
      ensures Valid() && fresh(fast) && fresh(slow) && fresh(rsi)
      ensures this.ar == ar && this.cfg == cfg && View() == STRATEGY_START
    {
      this.ar, this.cfg := ar, cfg;
      fast := new EmaTracker(ar, cfg.emaFast);
      slow := new EmaTracker(ar, cfg.emaSlow);
      rsi := new RsiTracker(ar, cfg.rsiPeriod);
    }

    method OnCandle(c: Candle) returns (signal: Signal)
      requires Valid()
      modifies fast, slow, rsi
      ensures View() == Observe(ar, cfg, old(View()), c.close)
      ensures signal == SignalOf(cfg, View(), c.ts)
    {
      fast.Update(c.close);
      slow.Update(c.close);
      rsi.Update(c.close);
      var fPrev, fCur, sPrev, sCur, r := fast.prev, fast.current, slow.prev, slow.current, rsi.current;
      if fPrev.None? || fCur.None? || sPrev.None? || sCur.None? || r.None? {
        return Signal(c.ts, Hold, "warmup");
      }
      var crossedUp := fPrev.value <= sPrev.value && fCur.value > sCur.value;
      var crossedDown := fPrev.value >= sPrev.value && fCur.value < sCur.value;
      if crossedUp {
        return Signal(c.ts, Buy, "ema_cross_up");
      }
      if crossedDown || r.value > cfg.rsiExit {
        return Signal(c.ts, Sell, "ema_cross_down_or_rsi_exit");
      }
      return Signal(c.ts, Hold, "");
    }
  }

  // ---- streaming equals batch

  lemma {:induction false} EmaCausal(ar: Arith, a: seq<real>, b: seq<real>, period: nat, i: nat)
    requires period >= 1 && i < |a| && i < |b| && a[..i + 1] == b[..i + 1]
    ensures EmaAt(ar, a, period, i) == EmaAt(ar, b, period, i)
  {
    if i + 1 == period {
      assert a[..period] == b[..period];
    } else if i + 1 > period {
      assert a[..i] == a[..i + 1][..i] == b[..i];
      EmaCausal(ar, a, b, period, i - 1);
      assert a[i] == a[..i + 1][i] == b[..i + 1][i] == b[i];
    }
  }

  /** What an EMA tracker holds after the first `n` values. */
  predicate EmaHolds(ar: Arith, period: nat, values: seq<real>, n: nat, s: EmaState)
    requires period >= 1 && n <= |values|
  {
    if n == 0 then s == EMA_START
    else
      && s.current == EmaAt(ar, values, period, n - 1)
      && s.prev == (if n >= 2 then EmaAt(ar, values, period, n - 2) else None)
      && (n < period ==> s.buffer == values[..n])
  }

  lemma {:induction false} EmaStep(ar: Arith, period: nat, values: seq<real>, n: nat, s: EmaState)
    requires period >= 1 && n < |values| && EmaHolds(ar, period, values, n, s)
    ensures EmaHolds(ar, period, values, n + 1, EmaUpdate(ar, period, s, values[n]))
  {
    if s.current.None? {
      assert n < period && s.buffer == values[..n];
      assert values[..n] + [values[n]] == values[..n + 1];
    }
  }

  lemma {:induction false} EmaMemory(ar: Arith, period: nat, values: seq<real>, n: nat)
    requires period >= 1 && n <= |values|
    ensures EmaHolds(ar, period, values, n, EmaFeed(ar, period, values[..n]))
  {
    if n > 0 {
      assert values[..n][..n - 1] == values[..n - 1];
      EmaMemory(ar, period, values, n - 1);
      EmaStep(ar, period, values, n - 1, EmaFeed(ar, period, values[..n - 1]));
    }
  }

  lemma {:induction false} ChangesCausal(ar: Arith, a: seq<real>, b: seq<real>, n: nat)
    requires n < |a| && n < |b| && a[..n + 1] == b[..n + 1]
    ensures Gains(ar, a, n) == Gains(ar, b, n) && Losses(ar, a, n) == Losses(ar, b, n)
  {
    if n > 0 {
      assert a[..n] == a[..n + 1][..n] == b[..n];
      ChangesCausal(ar, a, b, n - 1);
      assert a[n] == a[..n + 1][n] && b[n] == b[..n + 1][n];
      assert a[n - 1] == a[..n + 1][n - 1] && b[n - 1] == b[..n + 1][n - 1];
    }
  }

  lemma {:induction false} AveragesCausal(ar: Arith, a: seq<real>, b: seq<real>, period: nat, i: nat)
    requires 1 <= period <= i < |a| && i < |b| && a[..i + 1] == b[..i + 1]
    ensures AvgGain(ar, a, period, i) == AvgGain(ar, b, period, i)
    ensures AvgLoss(ar, a, period, i) == AvgLoss(ar, b, period, i)
  {
    if i == period {
      ChangesCausal(ar, a, b, period);
    } else {
      assert a[..i] == a[..i + 1][..i] == b[..i];
      AveragesCausal(ar, a, b, period, i - 1);
      assert a[i] == a[..i + 1][i] && b[i] == b[..i + 1][i];
      assert a[i - 1] == a[..i + 1][i - 1] && b[i - 1] == b[..i + 1][i - 1];
    }
  }

  lemma {:induction false} RsiCausal(ar: Arith, a: seq<real>, b: seq<real>, period: nat, i: nat)
    requires period >= 1 && i < |a| && i < |b| && a[..i + 1] == b[..i + 1]
    ensures RsiAt(ar, a, period, i) == RsiAt(ar, b, period, i)
  {
    if i >= period {
      AveragesCausal(ar, a, b, period, i);
    }
  }

  /** What an RSI tracker holds after the first `n` closes. */
  predicate RsiHolds(ar: Arith, period: nat, values: seq<real>, n: nat, s: RsiState)
    requires period >= 1 && n <= |values|
  {
    if n == 0 then s == RSI_START
    else
      && s.prevClose == Some(values[n - 1])
      && s.current == RsiAt(ar, values, period, n - 1)
      && (n <= period ==> s.gains == Gains(ar, values, n - 1) && s.losses == Losses(ar, values, n - 1))
      && s.avgGain == (if n > period then Some(AvgGain(ar, values, period, n - 1)) else None)
      && s.avgLoss == (if n > period then Some(AvgLoss(ar, values, period, n - 1)) else None)
  }

  lemma {:induction false} RsiStep(ar: Arith, period: nat, values: seq<real>, n: nat, s: RsiState)
    requires period >= 1 && n < |values| && RsiHolds(ar, period, values, n, s)
    ensures RsiHolds(ar, period, values, n + 1, RsiUpdate(ar, period, s, values[n]))
  {
  }

  lemma {:induction false} RsiMemory(ar: Arith, period: nat, values: seq<real>, n: nat)
    requires period >= 1 && n <= |values|
    ensures RsiHolds(ar, period, values, n, RsiFeed(ar, period, values[..n]))
  {
    if n > 0 {
      assert values[..n][..n - 1] == values[..n - 1];
      RsiMemory(ar, period, values, n - 1);
      RsiStep(ar, period, values, n - 1, RsiFeed(ar, period, values[..n - 1]));
    }
  }

  lemma {:induction false} StrategyFeedParts(ar: Arith, cfg: StrategyConfig, closes: seq<real>)
    requires cfg.Valid()
    ensures
      StrategyFeed(ar, cfg, closes) ==
      StrategyState(EmaFeed(ar, cfg.emaFast, closes), EmaFeed(ar, cfg.emaSlow, closes),
                    RsiFeed(ar, cfg.rsiPeriod, closes))
  {
    if closes != [] {
      StrategyFeedParts(ar, cfg, closes[..|closes| - 1]);
    }
  }

  /** The rule read off the whole series: averages at `i - 1` and `i`, RSI at `i`. */
  function BatchSignal(ar: Arith, cfg: StrategyConfig, closes: seq<real>, i: nat, ts: int): Signal
    requires cfg.Valid() && i < |closes|
  {
    Rule(cfg, ts,
         if i == 0 then None else EmaAt(ar, closes, cfg.emaFast, i - 1), EmaAt(ar, closes, cfg.emaFast, i),
         if i == 0 then None else EmaAt(ar, closes, cfg.emaSlow, i - 1), EmaAt(ar, closes, cfg.emaSlow, i),
         RsiAt(ar, closes, cfg.rsiPeriod, i))
  }

  lemma {:induction false} EmaStreamsTheSeries(ar: Arith, period: nat, values: seq<real>, i: nat)
    requires period >= 1 && i < |values|
    ensures
      var s := EmaFeed(ar, period, values[..i + 1]);
      && s.current == EmaAt(ar, values, period, i)
      && s.prev == if i == 0 then None else EmaAt(ar, values, period, i - 1)
  {
    EmaMemory(ar, period, values, i + 1);
  }

  lemma {:induction false} RsiStreamsTheSeries(ar: Arith, period: nat, values: seq<real>, i: nat)
    requires period >= 1 && i < |values|
    ensures RsiFeed(ar, period, values[..i + 1]).current == RsiAt(ar, values, period, i)
  {
    RsiMemory(ar, period, values, i + 1);
  }

  /** Streaming equals batch: fed candle by candle, the strategy signals at every index exactly what the crossing rule
      says of the whole-series indicators, bit for bit under any arithmetic and through the warm-up. */
  lemma {:induction false} StrategyStreamsTheRule(ar: Arith, cfg: StrategyConfig, closes: seq<real>, i: nat, ts: int)
    requires cfg.Valid() && i < |closes|
    ensures SignalOf(cfg, StrategyFeed(ar, cfg, closes[..i + 1]), ts) == BatchSignal(ar, cfg, closes, i, ts)
  {
    StrategyFeedParts(ar, cfg, closes[..i + 1]);
    EmaStreamsTheSeries(ar, cfg.emaFast, closes, i);
    EmaStreamsTheSeries(ar, cfg.emaSlow, closes, i);
    RsiStreamsTheSeries(ar, cfg.rsiPeriod, closes, i);
  }

  /** Every value the rule reads at index `i`, the averages of the index before included, is there. */
  predicate Warm(cfg: StrategyConfig, i: nat) {
    i >= cfg.emaFast && i >= cfg.emaSlow && i >= cfg.rsiPeriod
  }

  lemma {:induction false} WarmValues(ar: Arith, cfg: StrategyConfig, closes: seq<real>, i: nat)
    requires cfg.Valid() && i < |closes|
    ensures EmaAt(ar, closes, cfg.emaFast, i).Some? <==> i + 1 >= cfg.emaFast
    ensures EmaAt(ar, closes, cfg.emaSlow, i).Some? <==> i + 1 >= cfg.emaSlow
    ensures RsiAt(ar, closes, cfg.rsiPeriod, i).Some? <==> i >= cfg.rsiPeriod
  {
  }

  /** What the strategy does, read off the series: it buys exactly on an upward cross of the averages, sells exactly on
      a downward cross or an RSI above the exit level, and holds otherwise; it is warming up exactly until all the
      values are there. */
  lemma {:induction false} SignalMeans(ar: Arith, cfg: StrategyConfig, closes: seq<real>, i: nat, ts: int)
    requires cfg.Valid() && i < |closes|
    ensures
      var s := SignalOf(cfg, StrategyFeed(ar, cfg, closes[..i + 1]), ts);
      && s.ts == ts
      && (s.reason == "warmup" <==> !Warm(cfg, i))
      && (!Warm(cfg, i) ==> s.action.Hold?)
    ensures Warm(cfg, i) ==>
      var s := SignalOf(cfg, StrategyFeed(ar, cfg, closes[..i + 1]), ts);
      && EmaAt(ar, closes, cfg.emaFast, i - 1).Some? && EmaAt(ar, closes, cfg.emaFast, i).Some?
      && EmaAt(ar, closes, cfg.emaSlow, i - 1).Some? && EmaAt(ar, closes, cfg.emaSlow, i).Some?
      && RsiAt(ar, closes, cfg.rsiPeriod, i).Some?
      && var fastBefore, fast :=
           EmaAt(ar, closes, cfg.emaFast, i - 1).value, EmaAt(ar, closes, cfg.emaFast, i).value;
         var slowBefore, slow :=
           EmaAt(ar, closes, cfg.emaSlow, i - 1).value, EmaAt(ar, closes, cfg.emaSlow, i).value;
         var up, down := fastBefore <= slowBefore && fast > slow, fastBefore >= slowBefore && fast < slow;
         && (s.action.Buy? <==> up)
         && (s.action.Sell? <==> !up && (down || RsiAt(ar, closes, cfg.rsiPeriod, i).value > cfg.rsiExit))
         && s.reason == (if s.action.Buy? then "ema_cross_up"
                         else if s.action.Sell? then "ema_cross_down_or_rsi_exit" else "")
  {
    hide EmaAt, RsiAt, SignalOf;
    StrategyStreamsTheRule(ar, cfg, closes, i, ts);
    WarmValues(ar, cfg, closes, i);
    if i > 0 {
      WarmValues(ar, cfg, closes, i - 1);
    }
  }
}
