/** What the learning pipeline does with a bar: which model scores it, and what the score makes it do. */
module MlMeaning {
  import opened Numerics
  import opened Portfolio
  import opened Indicators
  import opened Backtest
  import opened Features
  import opened MlPipeline

  // ---- the windows

  /** Window `j` validates these rows, if there are so many outside the holdout. */
  function Lo(c: SplitConfig, j: int): int {
    c.initialTrain + j * c.step
  }

  predicate HasWindow(c: SplitConfig, rows: int, j: int) {
    j >= 0 && Lo(c, j) + c.valSize <= rows - c.holdoutSize
  }

  /** Window `j` exists and scores the row. */
  predicate Scores(c: SplitConfig, rows: int, j: int, row: int) {
    HasWindow(c, rows, j) && Lo(c, j) <= row < Lo(c, j) + c.valSize
  }

  lemma {:induction false} LaterWindows(c: SplitConfig, n: int, from: int, j: nat)
    requires ValidSplit(c) && from > 0
    ensures j < |WindowsFrom(c, n, from)| <==> from + j * c.step + c.valSize <= n - c.holdoutSize
    ensures j < |WindowsFrom(c, n, from)| ==>
      WindowsFrom(c, n, from)[j] == Window(from + j * c.step, from + j * c.step + c.valSize)
    decreases j
  {
    if from + c.valSize > n - c.holdoutSize {
      StepsForward(j, c.step);
    } else if j > 0 {
      LaterWindows(c, n, from + c.step, j - 1);
      NextStart(c, j - 1);
    }
  }

  lemma {:induction false} StepsForward(j: nat, step: int)
    requires step > 0
    ensures j * step >= 0
  {
  }

  lemma {:induction false} WindowAt(c: SplitConfig, rows: nat, j: nat)
    requires ValidSplit(c)
    ensures j < |AllWindows(c, rows)| <==> HasWindow(c, rows, j)
    ensures j < |AllWindows(c, rows)| ==> AllWindows(c, rows)[j] == Window(Lo(c, j), Lo(c, j) + c.valSize)
  {
    LaterWindows(c, rows, c.initialTrain, j);
  }

  // ---- the probabilities

  /** Every bar has at most one row. */
  predicate OneRowPerBar(fm: FeatureMatrix) {
    forall i, j :: 0 <= i < j < |fm.indices| ==> fm.indices[i] != fm.indices[j]
  }

  /** The score of a row by a model trained on the rows before `lo`. */
  function ScoreOf(learn: Learner, fm: FeatureMatrix, lo: nat, row: nat): real
    requires lo <= |fm.features| == |fm.labels| && row < |fm.features|
  {
    learn(fm.features[..lo], fm.labels[..lo], fm.features[row])
  }

  lemma {:induction false} RowsFilled(
    learn: Learner, fm: FeatureMatrix, probs: seq<Option<real>>, lo: nat, hi: nat, row: nat)
    requires FitsBars(fm, |probs|) && OneRowPerBar(fm) && lo <= hi <= |fm.indices| && row < |fm.indices|
    ensures
      FillRows(learn, fm, probs, lo, hi)[fm.indices[row]] ==
      if lo <= row < hi then Some(ScoreOf(learn, fm, lo, row)) else probs[fm.indices[row]]
  {
    if lo < hi {
      RowsFilled(learn, fm, probs, lo, hi - 1, row);
      FilledSoFar(learn, fm, probs, lo, hi, row);
    }
  }

  /** Each next row overwrites its own bar only, with the model of the window. */
  lemma {:induction false} FilledSoFar(
    learn: Learner, fm: FeatureMatrix, probs: seq<Option<real>>, lo: nat, hi: nat, row: nat)
    requires FitsBars(fm, |probs|) && OneRowPerBar(fm) && lo < hi <= |fm.indices| && row < |fm.indices|
    ensures
      FillRows(learn, fm, probs, lo, hi)[fm.indices[row]] ==
      if row == hi - 1 then Some(ScoreOf(learn, fm, lo, row))
      else FillRows(learn, fm, probs, lo, hi - 1)[fm.indices[row]]
  {
  }

  lemma {:induction false} NoRowNoScore(
    learn: Learner, fm: FeatureMatrix, probs: seq<Option<real>>, lo: nat, hi: nat, bar: nat)
    requires FitsBars(fm, |probs|) && lo <= hi <= |fm.indices| && bar < |probs| && bar !in fm.indices
    ensures FillRows(learn, fm, probs, lo, hi)[bar] == probs[bar]
  {
    if lo < hi {
      NoRowNoScore(learn, fm, probs, lo, hi - 1, bar);
    }
  }

  /** The last of the windows that scores the row, of those before `n`. */
  predicate LastScored(ws: seq<Window>, row: nat, j: int) {
    && 0 <= j < |ws| && ws[j].lo <= row < ws[j].hi
    && forall k :: j < k < |ws| ==> !(ws[k].lo <= row < ws[k].hi)
  }

  predicate NeverScored(ws: seq<Window>, row: nat) {
    forall k :: 0 <= k < |ws| ==> !(ws[k].lo <= row < ws[k].hi)
  }

  lemma {:induction false} WindowsFilled(
    learn: Learner, fm: FeatureMatrix, ws: seq<Window>, bars: nat, row: nat, j: int)
    requires FitsBars(fm, bars) && OneRowPerBar(fm) && WithinRows(ws, |fm.indices|) && row < |fm.indices|
    ensures LastScored(ws, row, j) ==>
      FillWindows(learn, fm, ws, bars)[fm.indices[row]] == Some(ScoreOf(learn, fm, ws[j].lo, row))
    ensures NeverScored(ws, row) ==> FillWindows(learn, fm, ws, bars)[fm.indices[row]] == None
  {
    hide FillRows, ScoreOf;
    if ws != [] {
      var front, w := ws[..|ws| - 1], ws[|ws| - 1];
      assert w in ws && ws == front + [w];
      WindowsFilled(learn, fm, front, bars, row, j);
      RowsFilled(learn, fm, FillWindows(learn, fm, front, bars), w.lo, w.hi, row);
    }
  }

  lemma {:induction false} UnscoredBars(learn: Learner, fm: FeatureMatrix, ws: seq<Window>, bars: nat, bar: nat)
    requires FitsBars(fm, bars) && WithinRows(ws, |fm.indices|) && bar < bars && bar !in fm.indices
    ensures FillWindows(learn, fm, ws, bars)[bar] == None
  {
    hide FillRows;
    if ws != [] {
      var front, w := ws[..|ws| - 1], ws[|ws| - 1];
      assert w in ws && ws == front + [w];
      UnscoredBars(learn, fm, front, bars, bar);
      NoRowNoScore(learn, fm, FillWindows(learn, fm, front, bars), w.lo, w.hi, bar);
    }
  }

  // ---- the actions

  /** Buy from the upper threshold on, sell up to the lower one, hold in between. */
  predicate ActsOn(th: Thresholds, score: real, action: Action) {
    match action
    case Buy => score >= th.buy
    case Sell => score < th.buy && score <= th.sell
    case Hold => score < th.buy && score > th.sell
  }

  lemma {:induction false} MatrixFits(ar: Arith, pw: Powers, closes: seq<real>)
    ensures FitsBars(Matrix(ar, pw, closes), |closes|) && OneRowPerBar(Matrix(ar, pw, closes))
  {
    var indices := Matrix(ar, pw, closes).indices;
    if closes != [] {
      RowsOrdered(ar, pw, closes, |closes| - 1);
      assert indices == RowsTo(ar, pw, closes, |closes| - 1).indices;
      assert forall j, k :: 0 <= j < k < |indices| ==> indices[j] < indices[k];
    }
  }

  lemma {:induction false} ScoresIff(c: SplitConfig, rows: nat, row: nat, k: nat)
    requires ValidSplit(c)
    ensures
      var ws := AllWindows(c, rows);
      Scores(c, rows, k, row) <==> k < |ws| && ws[k].lo <= row < ws[k].hi
  {
    hide AllWindows;
    WindowAt(c, rows, k);
  }

  lemma {:induction false} LastScoredIff(c: SplitConfig, rows: nat, row: nat, j: int)
    requires ValidSplit(c)
    ensures Scores(c, rows, j, row) && (forall k :: k > j ==> !Scores(c, rows, k, row)) ==>
      && LastScored(AllWindows(c, rows), row, j) && AllWindows(c, rows)[j].lo == Lo(c, j) && 0 < Lo(c, j) <= rows
  {
    hide AllWindows;
    var ws := AllWindows(c, rows);
    if Scores(c, rows, j, row) && forall k :: k > j ==> !Scores(c, rows, k, row) {
      ScoresIff(c, rows, row, j);
      WindowAt(c, rows, j);
      assert ws[j] in ws;
      forall k | j < k < |ws|
        ensures !(ws[k].lo <= row < ws[k].hi)
      {
        ScoresIff(c, rows, row, k);
      }
    }
  }

  lemma {:induction false} NeverScoredIff(c: SplitConfig, rows: nat, row: nat)
    requires ValidSplit(c)
    ensures (forall k :: !Scores(c, rows, k, row)) ==> NeverScored(AllWindows(c, rows), row)
  {
    hide AllWindows, Scores;
    var ws := AllWindows(c, rows);
    if forall k :: !Scores(c, rows, k, row) {
      forall k | 0 <= k < |ws|
        ensures !(ws[k].lo <= row < ws[k].hi)
      {
        ScoresIff(c, rows, row, k);
      }
    }
  }

  /** What the pipeline does on a bar with a row: it acts on the score of the last window over that row, by a model
      trained on the rows before that window and on nothing else, and holds if no window is over it. */
  lemma {:induction false} ScoredBarActs(
    ar: Arith, pw: Powers, learn: Learner, c: SplitConfig, th: Thresholds, candles: seq<Candle>, row: nat, j: int)
    requires ValidSplit(c) && row < |Matrix(ar, pw, Closes(candles)).indices|
    ensures
      var fm := Matrix(ar, pw, Closes(candles));
      var rows, actions := |fm.indices|, MlActions(ar, pw, learn, c, th, candles);
      && fm.indices[row] < |actions|
      && (Scores(c, rows, j, row) && (forall k :: k > j ==> !Scores(c, rows, k, row)) ==>
            && 0 < Lo(c, j) <= rows
            && ActsOn(th, learn(fm.features[..Lo(c, j)], fm.labels[..Lo(c, j)], fm.features[row]),
                      actions[fm.indices[row]]))
      && ((forall k :: !Scores(c, rows, k, row)) ==> actions[fm.indices[row]].Hold?)
  {
    hide FillWindows, Matrix, AllWindows, Scores, LastScored, NeverScored;
    var fm := Matrix(ar, pw, Closes(candles));
    var rows, bars := |fm.indices|, |candles|;
    MatrixFits(ar, pw, Closes(candles));
    WindowsFilled(learn, fm, AllWindows(c, rows), bars, row, j);
    LastScoredIff(c, rows, row, j);
    NeverScoredIff(c, rows, row);
  }

  /** A bar without a row is held. */
  lemma {:induction false} OtherBarsHold(
    ar: Arith, pw: Powers, learn: Learner, c: SplitConfig, th: Thresholds, candles: seq<Candle>, bar: nat)
    requires ValidSplit(c) && bar < |candles| && bar !in Matrix(ar, pw, Closes(candles)).indices
    ensures MlActions(ar, pw, learn, c, th, candles)[bar].Hold?
  {
    hide FillWindows, Matrix;
    var fm := Matrix(ar, pw, Closes(candles));
    MatrixFits(ar, pw, Closes(candles));
    UnscoredBars(learn, fm, AllWindows(c, |fm.indices|), |candles|, bar);
  }

  /** The backtest of a list of actions has action `n - 1` pending after bar `n - 1`, to be carried out at the next
      open; past the list it holds. */
  lemma {:induction false} ActionsArePending(
    ar: Arith, costs: Costs, cash: real, candles: seq<Candle>, actions: seq<Action>, n: nat)
    requires 0 < n <= |candles| && RunTo(ar, costs, cash, candles, Repeat(actions), n).Some?
    ensures
      RunTo(ar, costs, cash, candles, Repeat(actions), n).value.pending
      == Some(if n <= |actions| then actions[n - 1] else Hold)
  {
    hide FillPending;
    assert |candles[..n]| == n;
  }
}
