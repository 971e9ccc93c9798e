/** The machine-learning baseline: expanding-window training, probabilities turned into actions, a next-bar backtest. */
module MlPipeline {
  import opened Numerics
  import opened Portfolio
  import opened Indicators
  import opened Backtest
  import opened Features

  // ---- walk-forward windows

  datatype SplitConfig = SplitConfig(initialTrain: int, valSize: int, step: int, holdoutSize: int)

  /** What the splitter demands; anything else raises when it is built. */
  predicate ValidSplit(c: SplitConfig) {
    c.initialTrain > 0 && c.valSize > 0 && c.step > 0 && c.holdoutSize >= 0
  }

  /** Validation rows `lo` up to, not including, `hi`; everything before `lo` is training data. */
  datatype Window = Window(lo: int, hi: int)

  predicate Tiles(c: SplitConfig, ws: seq<Window>) {
    forall j {:trigger ws[j]} :: 0 <= j < |ws| ==>
      ws[j].lo == c.initialTrain + j * c.step && ws[j].hi == ws[j].lo + c.valSize
  }

  /** The windows tile forward by `step` from the initial training size, none reaches into the holdout, and the list
      stops only where the next one would. */
  method Windows(c: SplitConfig, n: int) returns (out: seq<Window>)
    requires ValidSplit(c)
    ensures Tiles(c, out)
    ensures forall j {:trigger out[j]} :: 0 <= j < |out| ==> 0 < out[j].lo < out[j].hi <= n - c.holdoutSize
    ensures c.initialTrain + |out| * c.step + c.valSize > n - c.holdoutSize
  {
    out := [];
    var limit := n - c.holdoutSize;
    var valStart := c.initialTrain;
    while valStart + c.valSize <= limit
      invariant valStart == c.initialTrain + |out| * c.step && valStart > 0
      invariant Tiles(c, out)
      invariant forall j {:trigger out[j]} :: 0 <= j < |out| ==> 0 < out[j].lo < out[j].hi <= limit
      decreases limit - valStart
    {
      NextStart(c, |out|);
      out := out + [Window(valStart, valStart + c.valSize)];
      valStart := valStart + c.step;
    }
  }

  lemma {:induction false} NextStart(c: SplitConfig, k: int)
    ensures (k + 1) * c.step == k * c.step + c.step
  {
  }

  /** The windows over `n` rows whose validation starts at `from` or later. */
  function WindowsFrom(c: SplitConfig, n: int, from: int): (r: seq<Window>)
    requires ValidSplit(c) && from > 0
    ensures forall w :: w in r ==> 0 < w.lo < w.hi <= n
    decreases n - from
  {
    if from + c.valSize > n - c.holdoutSize then []
    else [Window(from, from + c.valSize)] + WindowsFrom(c, n, from + c.step)
  }

  function AllWindows(c: SplitConfig, n: int): (r: seq<Window>)
    requires ValidSplit(c)
    ensures forall w :: w in r ==> 0 < w.lo < w.hi <= n
  {
    WindowsFrom(c, n, c.initialTrain)
  }

  lemma {:induction false} TilesAreWindows(c: SplitConfig, n: int, ws: seq<Window>, j: nat)
    requires ValidSplit(c) && Tiles(c, ws) && j <= |ws|
    requires forall i {:trigger ws[i]} :: 0 <= i < |ws| ==> ws[i].hi <= n - c.holdoutSize
    requires c.initialTrain + |ws| * c.step + c.valSize > n - c.holdoutSize
    requires c.initialTrain + j * c.step > 0
    ensures ws[j..] == WindowsFrom(c, n, c.initialTrain + j * c.step)
    decreases |ws| - j
  {
    if j < |ws| {
      NextStart(c, j);
      TilesAreWindows(c, n, ws, j + 1);
      assert ws[j..] == [ws[j]] + ws[j + 1..];
    }
  }

  // ---- probabilities

  /** Training on some rows and labels, then scoring one row: deterministic, and row by row. */
  type Learner = (seq<seq<real>>, seq<int>, seq<real>) -> real

  /** `probs` with the rows `lo` up to `hi` scored by a model trained on the rows before `lo`. */
  function FillRows(
    learn: Learner, fm: FeatureMatrix, probs: seq<Option<real>>, lo: nat, hi: nat): (r: seq<Option<real>>)
    requires lo <= hi <= |fm.indices| == |fm.features| == |fm.labels|
    requires forall k :: 0 <= k < |fm.indices| ==> fm.indices[k] < |probs|
    ensures |r| == |probs|
  {
    if lo == hi then probs
    else
      FillRows(learn, fm, probs, lo, hi - 1)[
        fm.indices[hi - 1] := Some(learn(fm.features[..lo], fm.labels[..lo], fm.features[hi - 1]))]
  }

  /** A matrix as `BuildFeatures` makes it for a series of `bars` bars. */
  predicate FitsBars(fm: FeatureMatrix, bars: nat) {
    |fm.indices| == |fm.features| == |fm.labels| && forall k :: 0 <= k < |fm.indices| ==> fm.indices[k] < bars
  }

  predicate WithinRows(ws: seq<Window>, rows: nat) {
    forall w :: w in ws ==> 0 < w.lo < w.hi <= rows
  }

  function FillWindows(learn: Learner, fm: FeatureMatrix, ws: seq<Window>, bars: nat): (r: seq<Option<real>>)
    requires FitsBars(fm, bars) && WithinRows(ws, |fm.indices|)
    ensures |r| == bars
  {
    if ws == [] then seq(bars, _ => None)
    else
      var w := ws[|ws| - 1];
      FillRows(learn, fm, FillWindows(learn, fm, ws[..|ws| - 1], bars), w.lo, w.hi)
  }

  // ---- actions

  datatype Thresholds = Thresholds(buy: real, sell: real)

  function ActionOf(th: Thresholds, prob: Option<real>): Action {
    match prob
    case None => Hold
    case Some(p) => if p >= th.buy then Buy else if p <= th.sell then Sell else Hold
  }

  function ActionsOf(th: Thresholds, probs: seq<Option<real>>): (r: seq<Action>)
    ensures |r| == |probs| && forall i {:trigger r[i]} :: 0 <= i < |r| ==> r[i] == ActionOf(th, probs[i])
  {
    seq(|probs|, i requires 0 <= i < |probs| => ActionOf(th, probs[i]))
  }

  /** The actions of a whole series. */
  function MlActions(ar: Arith, pw: Powers, learn: Learner, c: SplitConfig, th: Thresholds, candles: seq<Candle>)
    : (r: seq<Action>)
    requires ValidSplit(c)
    ensures |r| == |candles|
  {
    var fm := Matrix(ar, pw, Closes(candles));
    ActionsOf(th, FillWindows(learn, fm, AllWindows(c, |fm.indices|), |candles|))
  }

  /** A strategy that answers from a fixed list, then holds. */
  function Repeat(actions: seq<Action>): Decider {
    (seen: seq<Candle>) => if 0 < |seen| <= |actions| then actions[|seen| - 1] else Hold
  }

  class PrecomputedStrategy {
    const actions: seq<Action>
    var i: nat

    constructor (actions: seq<Action>)
      ensures this.actions == actions && i == 0
    {
      this.actions, i := actions, 0;
    }

    /** Shown one more candle, the object answers what `Repeat` answers to all it has been shown. */
    method OnCandle(ghost seen: seq<Candle>) returns (action: Action)
      requires |seen| == i + 1
      modifies this
      ensures i == old(i) + 1 && action == Repeat(actions)(seen)
    {
      action := if i < |actions| then actions[i] else Hold;
      i := i + 1;
    }
  }

  datatype Outcome = BadSplit | Raised | Ran(bars: Bars)

  method RunMlBaseline(
    ar: Arith, pw: Powers, learn: Learner, c: SplitConfig, th: Thresholds, costs: Costs, cash: real,
    candles: seq<Candle>)
    returns (outcome: Outcome)
    ensures outcome ==
      if !ValidSplit(c) then BadSplit
      else
        match RunTo(ar, costs, cash, candles, Repeat(MlActions(ar, pw, learn, c, th, candles)), |candles|)
        case None => Raised
        case Some(st) => Ran(st)
  {
    if c.initialTrain <= 0 || c.valSize <= 0 || c.step <= 0 || c.holdoutSize < 0 {
      return BadSplit;
    }
    var actions := Predict(ar, pw, learn, c, th, candles);
    var engine := new BacktestEngine(ar, costs, cash);
    var result := engine.Run(candles, Repeat(actions));
    return match result case None => Raised case Some(st) => Ran(st);
  }

  method Predict(ar: Arith, pw: Powers, learn: Learner, c: SplitConfig, th: Thresholds, candles: seq<Candle>)
    returns (actions: seq<Action>)
    requires ValidSplit(c)
    ensures actions == MlActions(ar, pw, learn, c, th, candles)
  {
    var fm := BuildFeatures(ar, pw, candles);
    var windows := Windows(c, |fm.indices|);
    TilesAreWindows(c, |fm.indices|, windows, 0);
    assert windows == windows[0..];
    var probs := Probabilities(learn, fm, windows, |candles|);
    actions := ActionsOf(th, probs);
  }

  method Probabilities(
    learn: Learner, fm: FeatureMatrix, windows: seq<Window>, bars: nat)
    returns (probs: seq<Option<real>>)
    requires FitsBars(fm, bars) && WithinRows(windows, |fm.indices|)
    ensures probs == FillWindows(learn, fm, windows, bars)
  {
    probs := seq(bars, _ => None);
    for k := 0 to |windows|
      invariant probs == FillWindows(learn, fm, windows[..k], bars)
    {
      var w := windows[k];
      assert w in windows;
      ghost var before := probs;
      for row := w.lo to w.hi
        invariant probs == FillRows(learn, fm, before, w.lo, row)
      {
        probs := probs[fm.indices[row] := Some(learn(fm.features[..w.lo], fm.labels[..w.lo], fm.features[row]))];
      }
      assert windows[..k + 1][..k] == windows[..k];
    }
    assert windows[..|windows|] == windows;
  }
}
