/** No lookahead in the machine-learning backtest, although its labels read the close after each row. */
module MlCausality {
  import opened Numerics
  import opened Portfolio
  import opened Indicators
  import opened Backtest
  import opened Features
  import opened MlPipeline

  /** Matrices of two series that agree before bar `cut`: same rows there, same labels but for the last of them, and
      as many rows in all. */
  predicate AgreeBefore(x: FeatureMatrix, y: FeatureMatrix, shared: nat, cut: nat) {
    && |x.indices| == |x.features| == |x.labels| == |y.indices| == |y.features| == |y.labels|
    && shared <= |x.indices|
    && x.indices[..shared] == y.indices[..shared] && x.features[..shared] == y.features[..shared]
    && (forall k :: 0 <= k < shared - 1 ==> x.labels[k] == y.labels[k])
    && (forall k :: shared <= k < |x.indices| ==> cut <= x.indices[k] && cut <= y.indices[k])
  }

  /** A window trained before its rows cannot tell the two matrices apart before the cut: a validation row before the
      cut is only trained on rows, and labels, the matrices share. */
  lemma {:induction false} SameScore(
    learn: Learner, x: FeatureMatrix, y: FeatureMatrix, shared: nat, cut: nat, lo: nat, row: nat)
    requires AgreeBefore(x, y, shared, cut) && lo <= row < shared
    ensures
      learn(x.features[..lo], x.labels[..lo], x.features[row])
      == learn(y.features[..lo], y.labels[..lo], y.features[row])
  {
    assert x.features[..lo] == x.features[..shared][..lo] == y.features[..lo];
    assert x.features[row] == x.features[..shared][row] == y.features[row];
    assert x.labels[..lo] == y.labels[..lo];
  }

  lemma {:induction false} FillSame(
    learn: Learner, x: FeatureMatrix, y: FeatureMatrix, p: seq<Option<real>>, q: seq<Option<real>>, lo: nat, hi: nat,
    shared: nat, cut: nat)
    requires AgreeBefore(x, y, shared, cut) && FitsBars(x, |p|) && FitsBars(y, |q|)
    requires lo <= hi <= |x.indices| && cut <= |p| == |q| && p[..cut] == q[..cut]
    ensures FillRows(learn, x, p, lo, hi)[..cut] == FillRows(learn, y, q, lo, hi)[..cut]
  {
    if lo < hi {
      FillSame(learn, x, y, p, q, lo, hi - 1, shared, cut);
      if hi - 1 < shared {
        SameScore(learn, x, y, shared, cut, lo, hi - 1);
        assert x.indices[hi - 1] == x.indices[..shared][hi - 1] == y.indices[hi - 1];
        WriteSame(FillRows(learn, x, p, lo, hi - 1), FillRows(learn, y, q, lo, hi - 1), x.indices[hi - 1],
                  Some(learn(x.features[..lo], x.labels[..lo], x.features[hi - 1])), cut);
      } else {
        WriteBeyond(FillRows(learn, x, p, lo, hi - 1), x.indices[hi - 1],
                    Some(learn(x.features[..lo], x.labels[..lo], x.features[hi - 1])), cut);
        WriteBeyond(FillRows(learn, y, q, lo, hi - 1), y.indices[hi - 1],
                    Some(learn(y.features[..lo], y.labels[..lo], y.features[hi - 1])), cut);
      }
    }
  }

  lemma {:induction false} WriteSame(p: seq<Option<real>>, q: seq<Option<real>>, i: nat, v: Option<real>, cut: nat)
    requires i < |p| == |q| && cut <= |p| && p[..cut] == q[..cut]
    ensures p[i := v][..cut] == q[i := v][..cut]
  {
    assert i < cut ==> p[i := v][..cut] == p[..cut][i := v] && q[i := v][..cut] == q[..cut][i := v];
    assert i >= cut ==> p[i := v][..cut] == p[..cut] && q[i := v][..cut] == q[..cut];
  }

  lemma {:induction false} WriteBeyond(p: seq<Option<real>>, i: nat, v: Option<real>, cut: nat)
    requires cut <= i < |p|
    ensures p[i := v][..cut] == p[..cut]
  {
  }

  lemma {:induction false} WindowsSame(
    learn: Learner, x: FeatureMatrix, y: FeatureMatrix, ws: seq<Window>, bars: nat, shared: nat, cut: nat)
    requires AgreeBefore(x, y, shared, cut) && FitsBars(x, bars) && FitsBars(y, bars) && cut <= bars
    requires WithinRows(ws, |x.indices|)
    ensures FillWindows(learn, x, ws, bars)[..cut] == FillWindows(learn, y, ws, bars)[..cut]
  {
    if ws != [] {
      var front, w := ws[..|ws| - 1], ws[|ws| - 1];
      WindowsSame(learn, x, y, front, bars, shared, cut);
      FillSame(learn, x, y, FillWindows(learn, x, front, bars), FillWindows(learn, y, front, bars), w.lo, w.hi, shared,
               cut);
    }
  }

  lemma {:induction false} ClosesAgree(a: seq<Candle>, b: seq<Candle>, cut: nat)
    requires cut <= |a| && cut <= |b| && a[..cut] == b[..cut]
    ensures Closes(a)[..cut] == Closes(b)[..cut]
  {
    forall k | 0 <= k < cut
      ensures Closes(a)[k] == Closes(b)[k]
    {
      assert a[k] == a[..cut][k] && b[k] == b[..cut][k];
    }
  }

  lemma {:induction false} MatricesAgree(ar: Arith, pw: Powers, a: seq<real>, b: seq<real>, cut: nat)
    requires cut < |a| == |b| && a[..cut] == b[..cut]
    requires |Matrix(ar, pw, a).indices| == |Matrix(ar, pw, b).indices|
    ensures AgreeBefore(Matrix(ar, pw, a), Matrix(ar, pw, b), |RowsTo(ar, pw, a, cut).indices|, cut)
  {
    var x, y := Matrix(ar, pw, a), Matrix(ar, pw, b);
    var shared := |RowsTo(ar, pw, a, cut).indices|;
    RowsCausal(ar, pw, a, b, cut);
    RowsGrow(ar, pw, a, cut, |a| - 1);
    RowsGrow(ar, pw, b, cut, |b| - 1);
    forall k | 0 <= k < shared - 1
      ensures x.labels[k] == y.labels[k]
    {
      SharedLabel(ar, pw, a, b, cut, k);
    }
  }

  lemma {:induction false} SameLabel(a: seq<real>, b: seq<real>, cut: nat, bar: nat)
    requires cut < |a| && cut < |b| && a[..cut] == b[..cut] && bar + 1 < cut
    ensures LabelAt(a, bar) == LabelAt(b, bar)
  {
    assert a[bar] == a[..cut][bar] && a[bar + 1] == a[..cut][bar + 1];
    assert b[bar] == b[..cut][bar] && b[bar + 1] == b[..cut][bar + 1];
  }

  lemma {:induction false} SharedIndex(ar: Arith, pw: Powers, a: seq<real>, cut: nat, k: nat)
    requires cut < |a| && k < |RowsTo(ar, pw, a, cut).indices|
    ensures k < |Matrix(ar, pw, a).indices|
    ensures Matrix(ar, pw, a).indices[k] == RowsTo(ar, pw, a, cut).indices[k]
  {
    hide RowAt, LabelAt, RowsTo;
    assert Matrix(ar, pw, a) == RowsTo(ar, pw, a, |a| - 1);
    RowsGrow(ar, pw, a, cut, |a| - 1);
    PrefixIndex(RowsTo(ar, pw, a, cut).indices, Matrix(ar, pw, a).indices, k);
  }

  lemma {:induction false} PrefixIndex(short: seq<nat>, long: seq<nat>, k: nat)
    requires k < |short| <= |long| && long[..|short|] == short
    ensures long[k] == short[k]
  {
    assert long[k] == long[..|short|][k];
  }

  lemma {:induction false} LabelOfRow(ar: Arith, pw: Powers, a: seq<real>, k: nat)
    requires k < |Matrix(ar, pw, a).indices|
    ensures Matrix(ar, pw, a).labels[k] == LabelAt(a, Matrix(ar, pw, a).indices[k])
  {
    RowsOrdered(ar, pw, a, |a| - 1);
    assert Matrix(ar, pw, a) == RowsTo(ar, pw, a, |a| - 1);
  }

  lemma {:induction false} BarBeforeLast(ar: Arith, pw: Powers, a: seq<real>, cut: nat, k: nat)
    requires cut < |a| && k + 1 < |RowsTo(ar, pw, a, cut).indices|
    ensures RowsTo(ar, pw, a, cut).indices[k] + 1 < cut
  {
    RowsOrdered(ar, pw, a, cut);
    var rows := RowsTo(ar, pw, a, cut).indices;
    assert rows[k] < rows[k + 1];
  }

  lemma {:induction false} SharedLabel(ar: Arith, pw: Powers, a: seq<real>, b: seq<real>, cut: nat, k: nat)
    requires cut < |a| == |b| && a[..cut] == b[..cut] && k + 1 < |RowsTo(ar, pw, a, cut).indices|
    requires RowsTo(ar, pw, a, cut).indices == RowsTo(ar, pw, b, cut).indices
    ensures k < |Matrix(ar, pw, a).labels| && k < |Matrix(ar, pw, b).labels|
    ensures Matrix(ar, pw, a).labels[k] == Matrix(ar, pw, b).labels[k]
  {
    SharedIndex(ar, pw, a, cut, k);
    SharedIndex(ar, pw, b, cut, k);
    LabelOfRow(ar, pw, a, k);
    LabelOfRow(ar, pw, b, k);
    BarBeforeLast(ar, pw, a, cut, k);
    SameLabel(a, b, cut, RowsTo(ar, pw, a, cut).indices[k]);
  }

  /** Series of one length with as many usable rows: what happens from bar `cut` on cannot change an action before it,
      for any learner, any overlap of windows and any arithmetic. */
  lemma {:induction false} ActionsCausal(
    ar: Arith, pw: Powers, learn: Learner, c: SplitConfig, th: Thresholds, a: seq<Candle>, b: seq<Candle>, cut: nat)
    requires ValidSplit(c) && cut <= |a| == |b| && a[..cut] == b[..cut]
    requires |Matrix(ar, pw, Closes(a)).indices| == |Matrix(ar, pw, Closes(b)).indices|
    ensures MlActions(ar, pw, learn, c, th, a)[..cut] == MlActions(ar, pw, learn, c, th, b)[..cut]
  {
    if cut == |a| {
      assert a == a[..cut] && b == b[..cut];
    } else {
      var x, y := Matrix(ar, pw, Closes(a)), Matrix(ar, pw, Closes(b));
      var ws := AllWindows(c, |x.indices|);
      ClosesAgree(a, b, cut);
      MatricesAgree(ar, pw, Closes(a), Closes(b), cut);
      WindowsSame(learn, x, y, ws, |a|, |RowsTo(ar, pw, Closes(a), cut).indices|, cut);
      ActionsAgree(th, FillWindows(learn, x, ws, |a|), FillWindows(learn, y, ws, |a|), cut);
    }
  }

  lemma {:induction false} ActionsAgree(th: Thresholds, p: seq<Option<real>>, q: seq<Option<real>>, cut: nat)
    requires cut <= |p| && cut <= |q| && p[..cut] == q[..cut]
    ensures ActionsOf(th, p)[..cut] == ActionsOf(th, q)[..cut]
  {
    forall k | 0 <= k < cut
      ensures ActionsOf(th, p)[k] == ActionsOf(th, q)[k]
    {
      assert p[k] == p[..cut][k] && q[k] == q[..cut][k];
    }
  }

  // ---- the exact condition

  /** Nothing after the first `cut` bars can reach back: the two series have as many usable rows in all, or at most one
      of them before the cut, where no window ever scores it. */
  predicate NothingReachesBack(a: seq<Candle>, b: seq<Candle>, cut: nat)
    requires cut <= |a|
  {
    TotalRows(Closes(a)) == TotalRows(Closes(b)) || UsableRows(Closes(a), cut) < 2
  }

  /** Whatever the learner, the split and the thresholds, the first `cut` actions are the same. */
  ghost predicate SameActionsBefore(ar: Arith, pw: Powers, a: seq<Candle>, b: seq<Candle>, cut: nat)
    requires cut <= |a| && cut <= |b|
  {
    forall learn: Learner, c: SplitConfig, th: Thresholds :: ValidSplit(c) ==>
      MlActions(ar, pw, learn, c, th, a)[..cut] == MlActions(ar, pw, learn, c, th, b)[..cut]
  }

  lemma {:induction false} FirstRowUnscored(
    learn: Learner, x: FeatureMatrix, p: seq<Option<real>>, lo: nat, hi: nat, cut: nat)
    requires FitsBars(x, |p|) && 1 <= lo <= hi <= |x.indices| && cut <= |p|
    requires forall k :: 1 <= k < |x.indices| ==> cut <= x.indices[k]
    ensures FillRows(learn, x, p, lo, hi)[..cut] == p[..cut]
  {
    if lo < hi {
      FirstRowUnscored(learn, x, p, lo, hi - 1, cut);
      WriteBeyond(FillRows(learn, x, p, lo, hi - 1), x.indices[hi - 1],
                  Some(learn(x.features[..lo], x.labels[..lo], x.features[hi - 1])), cut);
    }
  }

  /** No window scores the first row, since every window trains on at least one. */
  lemma {:induction false} NothingScoredBefore(
    learn: Learner, x: FeatureMatrix, ws: seq<Window>, bars: nat, cut: nat)
    requires FitsBars(x, bars) && WithinRows(ws, |x.indices|) && cut <= bars
    requires forall k :: 1 <= k < |x.indices| ==> cut <= x.indices[k]
    ensures FillWindows(learn, x, ws, bars)[..cut] == seq(cut, _ => None)
  {
    if ws != [] {
      var front, w := ws[..|ws| - 1], ws[|ws| - 1];
      NothingScoredBefore(learn, x, front, bars, cut);
      FirstRowUnscored(learn, x, FillWindows(learn, x, front, bars), w.lo, w.hi, cut);
    }
  }

  lemma {:induction false} LateRows(ar: Arith, pw: Powers, closes: seq<real>, cut: nat)
    requires cut < |closes| && UsableRows(closes, cut) < 2
    ensures
      var x := Matrix(ar, pw, closes);
      forall k :: 1 <= k < |x.indices| ==> cut <= x.indices[k]
  {
    hide RowsTo;
    CountRows(ar, pw, closes, cut);
    RowsGrow(ar, pw, closes, cut, |closes| - 1);
  }

  /** With at most one usable row before the cut, every action before it is a hold. */
  lemma {:induction false} HoldsBefore(
    ar: Arith, pw: Powers, learn: Learner, c: SplitConfig, th: Thresholds, a: seq<Candle>, cut: nat)
    requires ValidSplit(c) && cut < |a| && UsableRows(Closes(a), cut) < 2
    ensures MlActions(ar, pw, learn, c, th, a)[..cut] == seq(cut, _ => Hold)
  {
    hide Matrix, FillWindows, AllWindows;
    var x := Matrix(ar, pw, Closes(a));
    var probs := FillWindows(learn, x, AllWindows(c, |x.indices|), |a|);
    LateRows(ar, pw, Closes(a), cut);
    NothingScoredBefore(learn, x, AllWindows(c, |x.indices|), |a|, cut);
    forall k | 0 <= k < cut
      ensures MlActions(ar, pw, learn, c, th, a)[k] == Hold
    {
      assert probs[k] == probs[..cut][k] == None;
    }
  }

  /** Sufficient: the condition makes the actions before the cut the same. */
  lemma {:induction false} ActionsAgreeWhen(
    ar: Arith, pw: Powers, learn: Learner, c: SplitConfig, th: Thresholds, a: seq<Candle>, b: seq<Candle>, cut: nat)
    requires ValidSplit(c) && cut <= |a| == |b| && a[..cut] == b[..cut] && NothingReachesBack(a, b, cut)
    ensures MlActions(ar, pw, learn, c, th, a)[..cut] == MlActions(ar, pw, learn, c, th, b)[..cut]
  {
    hide MlActions, UsableRows;
    if cut == |a| {
      assert a == a[..cut] && b == b[..cut];
    } else if TotalRows(Closes(a)) == TotalRows(Closes(b)) {
      CountMatrix(ar, pw, Closes(a));
      CountMatrix(ar, pw, Closes(b));
      ActionsCausal(ar, pw, learn, c, th, a, b, cut);
    } else {
      SameUsableBefore(ar, pw, a, b, cut);
      HoldsBefore(ar, pw, learn, c, th, a, cut);
      HoldsBefore(ar, pw, learn, c, th, b, cut);
    }
  }

  lemma {:induction false} SameUsableBefore(ar: Arith, pw: Powers, a: seq<Candle>, b: seq<Candle>, cut: nat)
    requires cut < |a| == |b| && a[..cut] == b[..cut]
    ensures UsableRows(Closes(a), cut) == UsableRows(Closes(b), cut)
    ensures RowsTo(ar, pw, Closes(a), cut).indices == RowsTo(ar, pw, Closes(b), cut).indices
  {
    hide UsableRows, RowsTo;
    ClosesAgree(a, b, cut);
    RowsCausal(ar, pw, Closes(a), Closes(b), cut);
    CountRows(ar, pw, Closes(a), cut);
    CountRows(ar, pw, Closes(b), cut);
  }

  const ALWAYS_UP: Learner := (rows: seq<seq<real>>, labels: seq<int>, row: seq<real>) => 1.0

  /** One window that scores every row but the first, if there are `m` of them. */
  function WholeWindow(m: nat): SplitConfig {
    SplitConfig(1, m as int - 1, 1, 0)
  }

  lemma {:induction false} SecondRowScored(x: FeatureMatrix, p: seq<Option<real>>, hi: nat)
    requires FitsBars(x, |p|) && 2 <= hi <= |x.indices|
    ensures FillRows(ALWAYS_UP, x, p, 1, hi)[x.indices[1]] == Some(1.0)
  {
    var before := FillRows(ALWAYS_UP, x, p, 1, hi - 1);
    assert ALWAYS_UP(x.features[..1], x.labels[..1], x.features[hi - 1]) == 1.0;
    assert FillRows(ALWAYS_UP, x, p, 1, hi) == before[x.indices[hi - 1] := Some(1.0)];
    if hi > 2 {
      SecondRowScored(x, p, hi - 1);
    }
  }

  lemma {:induction false} WholeWindowScores(x: FeatureMatrix, bars: nat)
    requires FitsBars(x, bars) && |x.indices| >= 2
    ensures
      var m := |x.indices|;
      ValidSplit(WholeWindow(m)) && AllWindows(WholeWindow(m), m) == [Window(1, m)]
      && FillWindows(ALWAYS_UP, x, [Window(1, m)], bars)[x.indices[1]] == Some(1.0)
  {
    var m := |x.indices|;
    assert WindowsFrom(WholeWindow(m), m, 2) == [];
    assert [Window(1, m)][..0] == [];
    SecondRowScored(x, FillWindows(ALWAYS_UP, x, [], bars), m);
  }

  /** Necessary: more rows in one series than in the other turn the second row's action from a hold into a buy. */
  lemma {:induction false} ExtraRowReachesBack(ar: Arith, pw: Powers, a: seq<Candle>, b: seq<Candle>, cut: nat)
    requires cut < |a| == |b| && a[..cut] == b[..cut]
    requires UsableRows(Closes(a), cut) >= 2 && TotalRows(Closes(a)) < TotalRows(Closes(b))
    ensures
      var c, th := WholeWindow(TotalRows(Closes(b))), Thresholds(0.55, 0.45);
      && ValidSplit(c)
      && MlActions(ar, pw, ALWAYS_UP, c, th, a)[..cut] != MlActions(ar, pw, ALWAYS_UP, c, th, b)[..cut]
  {
    hide RowsTo, UsableRows;
    var x, y := Matrix(ar, pw, Closes(a)), Matrix(ar, pw, Closes(b));
    CountMatrix(ar, pw, Closes(a));
    CountMatrix(ar, pw, Closes(b));
    SameUsableBefore(ar, pw, a, b, cut);
    CountRows(ar, pw, Closes(b), cut);
    SharedIndex(ar, pw, Closes(b), cut, 1);
    var m, bar := |y.indices|, y.indices[1];
    WholeWindowScores(y, |b|);
    assert AllWindows(WholeWindow(m), |x.indices|) == [];
    var c, th := WholeWindow(m), Thresholds(0.55, 0.45);
    var d, e := MlActions(ar, pw, ALWAYS_UP, c, th, a), MlActions(ar, pw, ALWAYS_UP, c, th, b);
    assert bar < cut;
    assert e[bar] == Buy && d[bar] == Hold;
    assert d[..cut][bar] == d[bar] && e[..cut][bar] == e[bar];
  }

  lemma {:induction false} WholeSeries(a: seq<Candle>, b: seq<Candle>, cut: nat)
    requires cut <= |a| == |b| && a[..cut] == b[..cut]
    ensures cut == |a| ==> a == b
  {
    assert cut == |a| ==> a[..cut] == a && b[..cut] == b;
  }

  /** The exact condition: of two series that agree on their first `cut` candles, the actions for those bars are the
      same for every learner, split and threshold if and only if they have as many usable rows in all, or fewer than two
      before the cut. */
  lemma {:induction false} ActionsAgreeIff(ar: Arith, pw: Powers, a: seq<Candle>, b: seq<Candle>, cut: nat)
    requires cut <= |a| == |b| && a[..cut] == b[..cut]
    ensures SameActionsBefore(ar, pw, a, b, cut) <==> NothingReachesBack(a, b, cut)
  {
    hide MlActions, UsableRows, TotalRows;
    if NothingReachesBack(a, b, cut) {
      forall learn: Learner, c: SplitConfig, th: Thresholds | ValidSplit(c)
        ensures MlActions(ar, pw, learn, c, th, a)[..cut] == MlActions(ar, pw, learn, c, th, b)[..cut]
      {
        ActionsAgreeWhen(ar, pw, learn, c, th, a, b, cut);
      }
    } else {
      WholeSeries(a, b, cut);
      SameUsableBefore(ar, pw, a, b, cut);
      if TotalRows(Closes(a)) < TotalRows(Closes(b)) {
        ExtraRowReachesBack(ar, pw, a, b, cut);
      } else {
        ExtraRowReachesBack(ar, pw, b, a, cut);
      }
    }
  }

  /** With no zero close the condition holds: the number of rows depends on the length of the series alone. */
  lemma {:induction false} NonZeroNeverReachesBack(a: seq<Candle>, b: seq<Candle>, cut: nat)
    requires cut <= |a| == |b| && NonZero(Closes(a)) && NonZero(Closes(b))
    ensures NothingReachesBack(a, b, cut)
  {
    hide RowsTo, TotalRows;
    var ar, pw := Exact, Powers(x => x, x => x);
    CountMatrix(ar, pw, Closes(a));
    CountMatrix(ar, pw, Closes(b));
    if a != [] {
      RowsWhenNonZero(ar, pw, Closes(a), |a| - 1);
      RowsWhenNonZero(ar, pw, Closes(b), |b| - 1);
    }
  }

  // ---- equity

  lemma {:induction false} AnswersAgree(candles: seq<Candle>, d: seq<Action>, e: seq<Action>, cut: nat)
    requires cut <= |candles| == |d| == |e| && d[..cut] == e[..cut]
    ensures AnswerAlike(candles, Repeat(d), Repeat(e), cut)
  {
    forall k | 1 <= k < cut
      ensures Repeat(d)(candles[..k]) == Repeat(e)(candles[..k])
    {
      assert d[k - 1] == d[..cut][k - 1] && e[k - 1] == e[..cut][k - 1];
    }
  }

  lemma {:induction false} EquityAgrees(
    ar: Arith, costs: Costs, cash: real, a: seq<Candle>, b: seq<Candle>, d: Decider, e: Decider, cut: nat)
    requires 0 < cut <= |a| && cut <= |b| && a[..cut] == b[..cut] && AnswerAlike(a, d, e, cut)
    requires RunTo(ar, costs, cash, a, d, |a|).Some? && RunTo(ar, costs, cash, b, e, |b|).Some?
    ensures
      var x, y := RunTo(ar, costs, cash, a, d, |a|).value.equity, RunTo(ar, costs, cash, b, e, |b|).value.equity;
      |x| == |a| && |y| == |b| && x[..cut] == y[..cut]
  {
    EquityGrows(ar, costs, cash, a, d, cut, |a|);
    EquityGrows(ar, costs, cash, b, e, cut, |b|);
    BacktestCausal(ar, costs, cash, a, b, d, e, cut - 1);
  }

  /** The pipeline does not look ahead: series of one length that agree on their first `cut` candles, and where nothing
      reaches back, give the same actions and the same equity for those bars, whatever follows. */
  lemma {:induction false} MlNoLookahead(
    ar: Arith, pw: Powers, learn: Learner, c: SplitConfig, th: Thresholds, costs: Costs, cash: real, a: seq<Candle>,
    b: seq<Candle>, cut: nat)
    requires ValidSplit(c) && cut <= |a| == |b| && a[..cut] == b[..cut]
    requires NothingReachesBack(a, b, cut)
    ensures
      var d, e := MlActions(ar, pw, learn, c, th, a), MlActions(ar, pw, learn, c, th, b);
      && d[..cut] == e[..cut]
      && var r, s := RunTo(ar, costs, cash, a, Repeat(d), |a|), RunTo(ar, costs, cash, b, Repeat(e), |b|);
         0 < cut && r.Some? && s.Some? ==>
           |r.value.equity| == |s.value.equity| == |a| && r.value.equity[..cut] == s.value.equity[..cut]
  {
    hide MlActions;
    ActionsAgreeWhen(ar, pw, learn, c, th, a, b, cut);
    var d, e := MlActions(ar, pw, learn, c, th, a), MlActions(ar, pw, learn, c, th, b);
    var r, s := RunTo(ar, costs, cash, a, Repeat(d), |a|), RunTo(ar, costs, cash, b, Repeat(e), |b|);
    AnswersAgree(a, d, e, cut);
    if 0 < cut && r.Some? && s.Some? {
      EquityAgrees(ar, costs, cash, a, b, Repeat(d), Repeat(e), cut);
    }
  }

  // ---- why a zero close matters

  function Flat(): seq<Candle> {
    seq(19, i => Candle(i, 1.0, 1.0, 1.0, 1.0, 0.0, 0.0))
  }

  /** The same series with the close of bar 16 at zero. */
  function LateZero(): seq<Candle> {
    Flat()[16 := Candle(16, 1.0, 1.0, 0.0, 0.0, 0.0, 0.0)]
  }

  const ONE_WINDOW: SplitConfig := SplitConfig(1, 3, 1, 0)

  lemma {:induction false} NineteenCloses(ar: Arith, pw: Powers, closes: seq<real>)
    requires NonZero(closes) && |closes| == 19
    ensures Matrix(ar, pw, closes).indices == [14, 15, 16, 17]
  {
    hide RowAt, LabelAt, RowsTo;
    RowsWhenNonZero(ar, pw, closes, |closes| - 1);
  }

  /** A zero close just before the last row's bar costs that row. */
  lemma {:induction false} ZeroCostsRow(ar: Arith, pw: Powers, a: seq<real>, b: seq<real>, first: nat, t: nat)
    requires first == RSI_PERIOD && first <= t && |a| == |b| == t + 2
    requires NonZero(a) && a[..first] == b[..first] && b[t - 1] == 0.0
    ensures |Matrix(ar, pw, b).indices| <= t - first
  {
    RowsWhenNonZero(ar, pw, a, first);
    RowsCausal(ar, pw, a, b, first);
    RowsAtMost(ar, pw, b, first, t);
    NoRowAfterZero(ar, pw, b, t);
  }

  lemma {:induction false} LateZeroRows(ar: Arith, pw: Powers)
    ensures |Matrix(ar, pw, Closes(LateZero())).indices| <= 3
  {
    ZeroCostsRow(ar, pw, Closes(Flat()), Closes(LateZero()), 14, 17);
  }

  lemma {:induction false} NoRowAfterZero(ar: Arith, pw: Powers, closes: seq<real>, t: nat)
    requires 0 < t < |closes| - 1 && closes[t - 1] == 0.0
    ensures RowsTo(ar, pw, closes, t + 1) == RowsTo(ar, pw, closes, t)
  {
    NextRow(ar, pw, closes, t);
    assert RowAt(ar, pw, closes, t).None?;
  }

  lemma {:induction false} RowsAtMost(ar: Arith, pw: Powers, closes: seq<real>, n: nat, m: nat)
    requires n <= m < |closes|
    ensures |RowsTo(ar, pw, closes, m).indices| <= |RowsTo(ar, pw, closes, n).indices| + m - n
  {
    hide RowAt, LabelAt;
    if n < m {
      RowsAtMost(ar, pw, closes, n, m - 1);
      NextRow(ar, pw, closes, m - 1);
    }
  }

  lemma {:induction false} OnlyWindow(x: FeatureMatrix, bars: nat)
    requires FitsBars(x, bars) && x.indices == [14, 15, 16, 17] && bars > 17
    ensures AllWindows(ONE_WINDOW, 4) == [Window(1, 4)]
    ensures FillWindows(ALWAYS_UP, x, [Window(1, 4)], bars)[15] == Some(1.0)
  {
    var none := FillWindows(ALWAYS_UP, x, [], bars);
    assert [Window(1, 4)][..0] == [];
    var p := FillRows(ALWAYS_UP, x, none, 1, 2);
    assert ALWAYS_UP(x.features[..1], x.labels[..1], x.features[1]) == 1.0;
    assert p == FillRows(ALWAYS_UP, x, none, 1, 1)[15 := Some(1.0)];
    assert FillRows(ALWAYS_UP, x, none, 1, 3) == p[16 := Some(1.0)];
  }

  /** Four rows make one window, and bar 15 is its first; three rows make none. */
  lemma {:induction false} ActionAt15(ar: Arith, pw: Powers, candles: seq<Candle>)
    requires |candles| == 19
    ensures Matrix(ar, pw, Closes(candles)).indices == [14, 15, 16, 17] ==>
      MlActions(ar, pw, ALWAYS_UP, ONE_WINDOW, Thresholds(0.55, 0.45), candles)[15] == Buy
    ensures |Matrix(ar, pw, Closes(candles)).indices| <= 3 ==>
      MlActions(ar, pw, ALWAYS_UP, ONE_WINDOW, Thresholds(0.55, 0.45), candles)[15] == Hold
  {
    var x := Matrix(ar, pw, Closes(candles));
    if x.indices == [14, 15, 16, 17] {
      OnlyWindow(x, 19);
    }
    assert |x.indices| <= 3 ==> AllWindows(ONE_WINDOW, |x.indices|) == [];
  }

  /** The condition on closes is needed: a zero close at bar 16 costs a row, with it the only window, and so turns the
      action of bar 15, before it, from a buy into a hold. */
  lemma {:induction false} LateZeroChangesEarlierAction(ar: Arith, pw: Powers)
    ensures Flat()[..16] == LateZero()[..16] && |Flat()| == |LateZero()|
    ensures MlActions(ar, pw, ALWAYS_UP, ONE_WINDOW, Thresholds(0.55, 0.45), Flat())[15] == Buy
    ensures MlActions(ar, pw, ALWAYS_UP, ONE_WINDOW, Thresholds(0.55, 0.45), LateZero())[15] == Hold
  {
    NineteenCloses(ar, pw, Closes(Flat()));
    LateZeroRows(ar, pw);
    ActionAt15(ar, pw, Flat());
    ActionAt15(ar, pw, LateZero());
  }
}
