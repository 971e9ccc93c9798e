/** The next-bar backtest: a signal of one bar is carried out at the open of the next one, all in or all out. */
module Backtest {
  import opened Numerics
  import opened Portfolio
  import opened Conservation
  import opened Indicators

  datatype Costs = Costs(feeRate: real, slippageRate: real)

  function EmptyFill(ts: int, action: Action, price: real): Fill {
    Fill(ts, action, price, price, 0.0, 0.0, 0.0, 0.0)
  }

  /** Spends the whole cash; `None` where a divisor is zero and the source raises. */
  function BuyFill(ar: Arith, c: Costs, ts: int, price: real, cash: real): Option<Fill> {
    if cash <= 0.0 then Some(EmptyFill(ts, Buy, price))
    else
      var exec := ar.Mul(price, ar.Add(1.0, c.slippageRate));
      var over := ar.Add(1.0, c.feeRate);
      if over == 0.0 || exec == 0.0 then None
      else
        var quantity := ar.Div(ar.Div(cash, over), exec);
        var notional := ar.Mul(quantity, exec);
        Some(Fill(ts, Buy, price, exec, quantity, notional, ar.Mul(notional, c.feeRate),
                  ar.Mul(quantity, ar.Sub(exec, price))))
  }

  function SellFill(ar: Arith, c: Costs, ts: int, price: real, quantity: real): Fill {
    if quantity <= 0.0 then EmptyFill(ts, Sell, price)
    else
      var exec := ar.Mul(price, ar.Sub(1.0, c.slippageRate));
      var notional := ar.Mul(quantity, exec);
      Fill(ts, Sell, price, exec, quantity, notional, ar.Mul(notional, c.feeRate),
           ar.Mul(quantity, ar.Sub(price, exec)))
  }

  /** The account after carrying out a signal at a price; `None` where the source raises. */
  function Execute(ar: Arith, c: Costs, b: Book, action: Action, price: real, ts: int): Option<Book> {
    match action
    case Buy =>
      (match BuyFill(ar, c, ts, price, b.cash)
       case None => None
       case Some(f) => ApplyBuy(ar, b, f))
    case Sell => Some(if b.position > 0.0 then ApplySell(ar, b, SellFill(ar, c, ts, price, b.position)) else b)
    case Hold => Some(b)
  }

  /** Everything the bar loop carries from one bar to the next. */
  datatype Bars = Bars(
    book: Book,
    pending: Option<Action>,
    equity: seq<real>,
    signals: nat,
    openBars: nat,
    holding: seq<int>,
    entryBar: Option<nat>)

  /** What `on_candle` answers, as a function of the candles it has been shown. */
  type Decider = seq<Candle> -> Action

  /** The bookkeeping once the pending signal has turned the account into `b` at the open of bar `i`. */
  function Carried(st: Bars, action: Action, b: Book, i: nat): Bars {
    var before := st.book.position;
    var entered := action.Buy? && before == 0.0 && b.position > 0.0;
    var left := action.Sell? && b.position == 0.0 && before > 0.0;
    st.(book := b, pending := None,
        entryBar := if left then None else if entered then Some(i) else st.entryBar,
        holding := if left then st.holding + [i - st.entryBar.GetOr(i)] else st.holding)
  }

  /** The pending signal at the open of bar `i`. */
  function FillPending(ar: Arith, c: Costs, st: Bars, candle: Candle, i: nat): Option<Bars> {
    if st.pending.None? then Some(st)
    else
      match Execute(ar, c, st.book, st.pending.value, candle.open, candle.ts)
      case None => None
      case Some(b) => Some(Carried(st, st.pending.value, b, i))
  }

  /** The close of a bar: a new pending signal, and the account marked. */
  function CloseBar(ar: Arith, st: Bars, candle: Candle, action: Action): Bars {
    st.(pending := Some(action),
        signals := if action.Hold? then st.signals else st.signals + 1,
        equity := st.equity + [Equity(ar, st.book, candle.close)],
        openBars := if st.book.position > 0.0 then st.openBars + 1 else st.openBars)
  }

  function OneBar(ar: Arith, c: Costs, st: Bars, candle: Candle, i: nat, action: Action): Option<Bars> {
    match FillPending(ar, c, st, candle, i)
    case None => None
    case Some(filled) => Some(CloseBar(ar, filled, candle, action))
  }

  function StartBars(cash: real): Bars {
    Bars(OpeningBook(cash), None, [], 0, 0, [], None)
  }

  /** The loop after `n` bars. */
  function RunTo(ar: Arith, c: Costs, cash: real, candles: seq<Candle>, decide: Decider, n: nat): Option<Bars>
    requires n <= |candles|
  {
    if n == 0 then Some(StartBars(cash))
    else
      match RunTo(ar, c, cash, candles, decide, n - 1)
      case None => None
      case Some(st) => OneBar(ar, c, st, candles[n - 1], n - 1, decide(candles[..n]))
  }

  lemma {:induction false} RaisedForGood(
    ar: Arith, c: Costs, cash: real, candles: seq<Candle>, decide: Decider, n: nat, m: nat)
    requires n <= m <= |candles| && RunTo(ar, c, cash, candles, decide, n).None?
    ensures RunTo(ar, c, cash, candles, decide, m).None?
  {
    if n < m {
      RaisedForGood(ar, c, cash, candles, decide, n, m - 1);
    }
  }

  lemma {:induction false} OneMoreBar(
    ar: Arith, c: Costs, cash: real, candles: seq<Candle>, decide: Decider, n: nat, st: Bars)
    requires n < |candles| && RunTo(ar, c, cash, candles, decide, n) == Some(st)
    ensures
      RunTo(ar, c, cash, candles, decide, n + 1) ==
      OneBar(ar, c, st, candles[n], n, decide(candles[..n + 1]))
  {
  }

  class BacktestEngine {
    const ar: Arith
    const costs: Costs
    const initialCash: real

    constructor (ar: Arith, costs: Costs, initialCash: real)
      ensures this.ar == ar && this.costs == costs && this.initialCash == initialCash
    {
      this.ar, this.costs, this.initialCash := ar, costs, initialCash;
    }

    method Carry(action: Action, price: real, ts: int, account: PortfolioAccount) returns (raised: bool)
      requires account.ar == ar
      modifies account
      ensures raised <==> Execute(ar, costs, old(account.View()), action, price, ts).None?
      ensures account.View() == Execute(ar, costs, old(account.View()), action, price, ts).GetOr(old(account.View()))
    {
      raised := false;
      if action == Buy {
        var fill := BuyFill(ar, costs, ts, price, account.cash);
        if fill.None? {
          return true;
        }
        raised := account.Buy(fill.value);
      } else if action == Sell && account.position > 0.0 {
        account.Sell(SellFill(ar, costs, ts, price, account.position));
      }
    }

    /** The pending signal at the open of bar `i`, with the bar it was entered at and the holding times. */
    method CarryPending(
      ghost st: Bars, pending: Action, account: PortfolioAccount, holding: seq<int>, entryBar: Option<nat>,
      candle: Candle, i: nat)
      returns (raised: bool, holdingAfter: seq<int>, entryAfter: Option<nat>)
      requires account.ar == ar && st.book == account.View() && st.holding == holding && st.entryBar == entryBar
      requires st.pending == Some(pending)
      modifies account
      ensures raised <==> FillPending(ar, costs, st, candle, i).None?
      ensures !raised ==>
        FillPending(ar, costs, st, candle, i)
        == Some(st.(book := account.View(), pending := None, holding := holdingAfter, entryBar := entryAfter))
    {
      holdingAfter, entryAfter := holding, entryBar;
      var before := account.position;
      raised := Carry(pending, candle.open, candle.ts, account);
      if raised {
        return;
      }
      if pending == Buy && before == 0.0 && account.position > 0.0 {
        entryAfter := Some(i);
      }
      if pending == Sell && account.position == 0.0 && before > 0.0 {
        holdingAfter := holding + [i - entryBar.GetOr(i)];
        entryAfter := None;
      }
    }

    /** The bar loop, on an account of its own. */
    method Run(candles: seq<Candle>, decide: Decider) returns (result: Option<Bars>)
      ensures result == RunTo(ar, costs, initialCash, candles, decide, |candles|)
    {
      var account := new PortfolioAccount(ar, initialCash);
      var equity: seq<real>, pending: Option<Action>, signals: nat := [], None, 0;
      var openBars: nat, holding: seq<int>, entryBar: Option<nat> := 0, [], None;
      ghost var st := StartBars(initialCash);
      for i := 0 to |candles|
        invariant account.ar == ar
        invariant RunTo(ar, costs, initialCash, candles, decide, i) == Some(st)
        invariant st == Bars(account.View(), pending, equity, signals, openBars, holding, entryBar)
      {
        var candle := candles[i];
        ghost var filled := FillPending(ar, costs, st, candle, i);
        OneMoreBar(ar, costs, initialCash, candles, decide, i, st);
        if pending.Some? {
          var raised;
          raised, holding, entryBar := CarryPending(st, pending.value, account, holding, entryBar, candle, i);
          if raised {
            RaisedForGood(ar, costs, initialCash, candles, decide, i + 1, |candles|);
            return None;
          }
          pending := None;
        }
        ghost var mid := Bars(account.View(), None, equity, signals, openBars, holding, entryBar);
        assert filled == Some(mid);
        var action := decide(candles[..i + 1]);
        signals := if action != Hold then signals + 1 else signals;
        pending := Some(action);
        equity := equity + [Equity(ar, account.View(), candle.close)];
        openBars := if account.position > 0.0 then openBars + 1 else openBars;
        st := CloseBar(ar, mid, candle, action);
      }
      result := Some(Bars(account.View(), pending, equity, signals, openBars, holding, entryBar));
    }
  }

  // ---- no lookahead, under any arithmetic

  /** Two deciders that answer alike on every proper beginning of a series' first `n` candles. */
  predicate AnswerAlike(candles: seq<Candle>, d: Decider, e: Decider, n: nat)
    requires n <= |candles|
  {
    forall k :: 1 <= k < n ==> d(candles[..k]) == e(candles[..k])
  }

  /** Same account, equity and holding times; only the signal of the last bar, not carried out yet, may differ. */
  ghost predicate SameButSignal(x: Option<Bars>, y: Option<Bars>) {
    && (x.None? <==> y.None?)
    && (x.Some? ==> x.value.(pending := None, signals := 0) == y.value.(pending := None, signals := 0))
  }

  lemma {:induction false} ActionIsPending(ar: Arith, c: Costs, st: Bars, candle: Candle, i: nat, x: Action, y: Action)
    ensures SameButSignal(OneBar(ar, c, st, candle, i, x), OneBar(ar, c, st, candle, i, y))
  {
  }

  /** The first `n + 1` bars of a run see only the first `n + 1` candles and the signals of the first `n` bars: nothing
      later, candle or signal, can change their equity, trades or counters. */
  lemma {:induction false} BacktestCausal(
    ar: Arith, c: Costs, cash: real, a: seq<Candle>, b: seq<Candle>, d: Decider, e: Decider, n: nat)
    requires n < |a| && n < |b| && a[..n + 1] == b[..n + 1] && AnswerAlike(a, d, e, n + 1)
    ensures SameButSignal(RunTo(ar, c, cash, a, d, n + 1), RunTo(ar, c, cash, b, e, n + 1))
  {
    BacktestCausalStrict(ar, c, cash, a, b, d, e, n);
    assert a[n] == a[..n + 1][n] && b[n] == b[..n + 1][n];
    LastBar(ar, c, cash, a, b, d, e, n);
  }

  lemma {:induction false} LastBar(
    ar: Arith, c: Costs, cash: real, a: seq<Candle>, b: seq<Candle>, d: Decider, e: Decider, n: nat)
    requires n < |a| && n < |b| && a[n] == b[n]
    requires RunTo(ar, c, cash, a, d, n) == RunTo(ar, c, cash, b, e, n)
    ensures SameButSignal(RunTo(ar, c, cash, a, d, n + 1), RunTo(ar, c, cash, b, e, n + 1))
  {
    if RunTo(ar, c, cash, a, d, n).Some? {
      var st := RunTo(ar, c, cash, a, d, n).value;
      OneMoreBar(ar, c, cash, a, d, n, st);
      OneMoreBar(ar, c, cash, b, e, n, st);
      ActionIsPending(ar, c, st, a[n], n, d(a[..n + 1]), e(b[..n + 1]));
    }
  }

  lemma {:induction false} BacktestCausalStrict(
    ar: Arith, c: Costs, cash: real, a: seq<Candle>, b: seq<Candle>, d: Decider, e: Decider, n: nat)
    requires n < |a| && n < |b| && a[..n + 1] == b[..n + 1] && AnswerAlike(a, d, e, n + 1)
    ensures RunTo(ar, c, cash, a, d, n) == RunTo(ar, c, cash, b, e, n)
  {
    if n > 0 {
      assert a[..n] == a[..n + 1][..n] == b[..n];
      BacktestCausalStrict(ar, c, cash, a, b, d, e, n - 1);
      assert a[n - 1] == a[..n][n - 1] && b[n - 1] == b[..n][n - 1];
    }
  }

  lemma {:induction false} BarAddsEquity(ar: Arith, c: Costs, st: Bars, candle: Candle, i: nat, action: Action)
    requires OneBar(ar, c, st, candle, i, action).Some?
    ensures |OneBar(ar, c, st, candle, i, action).value.equity| == |st.equity| + 1
    ensures OneBar(ar, c, st, candle, i, action).value.equity[..|st.equity|] == st.equity
  {
  }

  lemma {:induction false} StepAddsEquity(
    ar: Arith, c: Costs, cash: real, candles: seq<Candle>, decide: Decider, n: nat)
    requires n < |candles| && RunTo(ar, c, cash, candles, decide, n + 1).Some?
    ensures RunTo(ar, c, cash, candles, decide, n).Some?
    ensures
      var st, next := RunTo(ar, c, cash, candles, decide, n).value, RunTo(ar, c, cash, candles, decide, n + 1).value;
      |next.equity| == |st.equity| + 1 && next.equity[..|st.equity|] == st.equity
  {
    var st := RunTo(ar, c, cash, candles, decide, n).value;
    OneMoreBar(ar, c, cash, candles, decide, n, st);
    BarAddsEquity(ar, c, st, candles[n], n, decide(candles[..n + 1]));
  }

  lemma {:induction false} EquityLength(ar: Arith, c: Costs, cash: real, candles: seq<Candle>, decide: Decider, n: nat)
    requires n <= |candles| && RunTo(ar, c, cash, candles, decide, n).Some?
    ensures |RunTo(ar, c, cash, candles, decide, n).value.equity| == n
  {
    if n > 0 {
      StepAddsEquity(ar, c, cash, candles, decide, n - 1);
      EquityLength(ar, c, cash, candles, decide, n - 1);
    }
  }

  /** Equity already recorded is never rewritten. */
  lemma {:induction false} EquityGrows(
    ar: Arith, c: Costs, cash: real, candles: seq<Candle>, decide: Decider, n: nat, m: nat)
    requires n <= m <= |candles| && RunTo(ar, c, cash, candles, decide, m).Some?
    ensures RunTo(ar, c, cash, candles, decide, n).Some?
    ensures
      var short, long := RunTo(ar, c, cash, candles, decide, n).value, RunTo(ar, c, cash, candles, decide, m).value;
      |short.equity| == n && |long.equity| == m && long.equity[..n] == short.equity
  {
    hide RunTo;
    if n < m {
      StepAddsEquity(ar, c, cash, candles, decide, m - 1);
      EquityGrows(ar, c, cash, candles, decide, n, m - 1);
    } else {
      EquityLength(ar, c, cash, candles, decide, n);
    }
  }
}
