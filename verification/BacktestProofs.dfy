/** What every backtest keeps, in exact arithmetic: it never raises on positive prices, is all in or all out, loses no
    money, and every trade is a signal of one bar carried out at the open of the next. */
module BacktestProofs {
  import opened Numerics
  import opened Portfolio
  import opened Conservation
  import opened Indicators
  import opened Backtest

  predicate Sane(c: Costs) {
    c.feeRate > -1.0 && -1.0 < c.slippageRate < 1.0
  }

  predicate Priced(candles: seq<Candle>) {
    forall i :: 0 <= i < |candles| ==> candles[i].open > 0.0
  }

  // ---- one order

  lemma {:induction false} SplitCash(cash: real, rate: real)
    requires 1.0 + rate != 0.0
    ensures cash / (1.0 + rate) + cash / (1.0 + rate) * rate == cash
  {
    var net := cash / (1.0 + rate);
    assert net * (1.0 + rate) == cash;
  }

  lemma {:induction false} CostOfShares(net: real, exec: real)
    requires exec != 0.0
    ensures net / exec * exec == net
  {
  }

  /** A buy costs exactly the cash it was sized for, fee included. */
  lemma {:induction false} BuySpendsAll(c: Costs, ts: int, price: real, cash: real)
    requires cash > 0.0 && price * (1.0 + c.slippageRate) != 0.0 && 1.0 + c.feeRate != 0.0
    ensures
      var f := BuyFill(Exact, c, ts, price, cash);
      f.Some? && f.value.notional + f.value.fee == cash && f.value.notional == f.value.quantity * f.value.execPrice
  {
    SplitCash(cash, c.feeRate);
    CostOfShares(cash / (1.0 + c.feeRate), price * (1.0 + c.slippageRate));
  }

  /** Carrying out a signal raises exactly when a buy with cash left meets a zero execution price or a fee of minus
      100 percent; it never exceeds the available cash. */
  lemma {:induction false} ExecuteRaisesIff(c: Costs, b: Book, action: Action, price: real, ts: int)
    ensures
      Execute(Exact, c, b, action, price, ts).None?
      <==> action.Buy? && b.cash > 0.0 && (price * (1.0 + c.slippageRate) == 0.0 || 1.0 + c.feeRate == 0.0)
  {
    if action.Buy? && b.cash > 0.0 && price * (1.0 + c.slippageRate) != 0.0 && 1.0 + c.feeRate != 0.0 {
      BuySpendsAll(c, ts, price, b.cash);
    }
  }

  /** Either no position, with nothing left over from the last one, or no cash. */
  predicate AllIn(b: Book) {
    && Sound(b)
    && (b.position > 0.0 ==> b.cash == 0.0)
    && (b.position == 0.0 ==> b.entryFees == 0.0 && b.entrySlippage == 0.0)
  }

  lemma {:induction false} PositiveProduct(x: real, y: real)
    requires x > 0.0 && y > 0.0
    ensures x * y > 0.0
  {
  }

  lemma {:induction false} PositiveQuotient(x: real, d: real)
    requires x > 0.0 && d > 0.0
    ensures x / d > 0.0
  {
  }

  lemma {:induction false} PositiveShares(c: Costs, price: real, cash: real)
    requires Sane(c) && price > 0.0 && cash > 0.0
    ensures price * (1.0 + c.slippageRate) > 0.0 && cash / (1.0 + c.feeRate) / (price * (1.0 + c.slippageRate)) > 0.0
  {
    PositiveProduct(price, 1.0 + c.slippageRate);
    PositiveQuotient(cash, 1.0 + c.feeRate);
    PositiveQuotient(cash / (1.0 + c.feeRate), price * (1.0 + c.slippageRate));
  }

  /** The fill of a buy with cash in hand at a positive price. */
  lemma {:induction false} BuyFillFacts(c: Costs, ts: int, price: real, cash: real)
    requires Sane(c) && price > 0.0 && cash > 0.0
    ensures
      var f := BuyFill(Exact, c, ts, price, cash);
      && f.Some? && f.value.ts == ts && f.value.quantity > 0.0 && Consistent(f.value)
      && f.value.execPrice == price * (1.0 + c.slippageRate) && f.value.notional + f.value.fee == cash
  {
    PositiveShares(c, price, cash);
    BuySpendsAll(c, ts, price, cash);
  }

  lemma {:induction false} SpendingAll(initial: real, b: Book, f: Fill)
    requires AllIn(b) && Conserved(initial, 0.0, b) && Consistent(f) && b.cash > 0.0
    requires f.action.Buy? && f.quantity > 0.0 && f.notional + f.fee == b.cash
    ensures
      var r := ApplyBuy(Exact, b, f);
      && r.Some? && AllIn(r.value) && Conserved(initial, 0.0, r.value) && r.value.position > 0.0
      && r.value.entryTs == Some(f.ts) && r.value.trades == b.trades && r.value.avgEntry == Some(f.execPrice)
  {
    BuyConserves(initial, 0.0, b, f, ApplyBuy(Exact, b, f).value);
  }

  lemma {:induction false} BuyGoesAllIn(initial: real, c: Costs, b: Book, price: real, ts: int)
    requires Sane(c) && price > 0.0 && AllIn(b) && Conserved(initial, 0.0, b) && b.cash > 0.0
    ensures
      var r := Execute(Exact, c, b, Buy, price, ts);
      && r.Some? && AllIn(r.value) && Conserved(initial, 0.0, r.value)
      && r.value.position > 0.0 && r.value.entryTs == Some(ts) && r.value.trades == b.trades
      && r.value.avgEntry == Some(price * (1.0 + c.slippageRate))
  {
    BuyFillFacts(c, ts, price, b.cash);
    SpendingAll(initial, b, BuyFill(Exact, c, ts, price, b.cash).value);
  }

  lemma {:induction false} WholeShare(x: real, fees: real)
    requires x != 0.0
    ensures x / x == 1.0 && fees * (x / x) == fees
  {
  }

  /** Selling exactly the position leaves nothing of it behind. */
  lemma {:induction false} SellingAll(initial: real, b: Book, f: Fill)
    requires AllIn(b) && Conserved(initial, 0.0, b) && Consistent(f) && f.action.Sell?
    requires b.position > 0.0 && f.quantity == b.position
    ensures
      var after, trade := ApplySell(Exact, b, f), SellTrade(Exact, b, f);
      && AllIn(after) && Conserved(initial, 0.0, after) && after.position == 0.0
      && after.trades == b.trades + [trade]
      && trade.entryTs == b.entryTs.value && trade.exitTs == f.ts && trade.quantity == b.position
      && trade.entryPrice == b.avgEntry.value && trade.exitPrice == f.execPrice
  {
    SellConserves(initial, 0.0, b, f);
    WholeShare(b.position, b.entryFees);
    WholeShare(b.position, b.entrySlippage);
    assert Remainder(b, f) == 0.0;
  }

  lemma {:induction false} SellGoesAllOut(initial: real, c: Costs, b: Book, price: real, ts: int)
    requires Sane(c) && price > 0.0 && AllIn(b) && Conserved(initial, 0.0, b) && b.position > 0.0
    ensures
      var f := SellFill(Exact, c, ts, price, b.position);
      var after, trade := ApplySell(Exact, b, f), SellTrade(Exact, b, f);
      && AllIn(after) && Conserved(initial, 0.0, after) && after.position == 0.0
      && after.trades == b.trades + [trade]
      && trade.entryTs == b.entryTs.value && trade.exitTs == ts && trade.quantity == b.position
      && trade.entryPrice == b.avgEntry.value && trade.exitPrice == price * (1.0 - c.slippageRate)
  {
    PositiveProduct(price, 1.0 - c.slippageRate);
    SellingAll(initial, b, SellFill(Exact, c, ts, price, b.position));
  }

  // ---- whole runs

  function Sum(xs: seq<int>): int {
    if xs == [] then 0 else Sum(xs[..|xs| - 1]) + xs[|xs| - 1]
  }

  /** The position was entered at the open of bar `e`, on a buy signal of the bar before. */
  predicate EnteredAt(candles: seq<Candle>, decide: Decider, c: Costs, ts: int, price: real, e: nat) {
    && 1 <= e < |candles| && decide(candles[..e]) == Buy
    && ts == candles[e].ts && price == candles[e].open * (1.0 + c.slippageRate)
  }

  /** A closed trade: bought at the open of bar `e`, sold at the open of bar `x`, each on the signal of the bar before,
      and counted as held for the bars between. */
  predicate RoundTrip(candles: seq<Candle>, decide: Decider, c: Costs, t: Trade, held: int, e: nat, x: nat) {
    && EnteredAt(candles, decide, c, t.entryTs, t.entryPrice, e)
    && e < x < |candles| && decide(candles[..x]) == Sell && held == x - e
    && t.exitTs == candles[x].ts && t.exitPrice == candles[x].open * (1.0 - c.slippageRate)
  }

  ghost predicate NextBarTrade(candles: seq<Candle>, decide: Decider, c: Costs, t: Trade, held: int) {
    exists e: nat, x: nat :: RoundTrip(candles, decide, c, t, held, e, x)
  }

  /** Where a run stands before bar `i`: the account, the entry bar, the trades and the bar counters agree. */
  ghost predicate InStep(initial: real, c: Costs, candles: seq<Candle>, decide: Decider, i: nat, st: Bars) {
    && AllIn(st.book) && Conserved(initial, 0.0, st.book)
    && (st.entryBar.Some? <==> st.book.position > 0.0)
    && (st.entryBar.Some? ==>
        && st.entryBar.value < i
        && EnteredAt(candles, decide, c, st.book.entryTs.value, st.book.avgEntry.value, st.entryBar.value))
    && st.openBars == Sum(st.holding) + (if st.entryBar.Some? then i - st.entryBar.value else 0)
    && |st.holding| == |st.book.trades|
    && (forall k :: 0 <= k < |st.holding| ==> NextBarTrade(candles, decide, c, st.book.trades[k], st.holding[k]))
  }

  lemma {:induction false} SumAppend(xs: seq<int>, x: int)
    ensures Sum(xs + [x]) == Sum(xs) + x
  {
    assert (xs + [x])[..|xs|] == xs;
  }

  /** The bar count once the position after the pending signal is known. */
  function Counted(st: Bars): Bars {
    st.(openBars := if st.book.position > 0.0 then st.openBars + 1 else st.openBars)
  }

  lemma {:induction false} EntryInStep(initial: real, c: Costs, candles: seq<Candle>, decide: Decider, i: nat, st: Bars)
    requires Sane(c) && Priced(candles) && 0 < i < |candles| && InStep(initial, c, candles, decide, i, st)
    requires decide(candles[..i]) == Buy
    ensures
      var r := Execute(Exact, c, st.book, Buy, candles[i].open, candles[i].ts);
      r.Some? && InStep(initial, c, candles, decide, i + 1, Counted(Carried(st, Buy, r.value, i)))
  {
    if st.book.cash > 0.0 {
      BuyGoesAllIn(initial, c, st.book, candles[i].open, candles[i].ts);
    }
  }

  lemma {:induction false} ExitInStep(initial: real, c: Costs, candles: seq<Candle>, decide: Decider, i: nat, st: Bars)
    requires Sane(c) && Priced(candles) && 0 < i < |candles| && InStep(initial, c, candles, decide, i, st)
    requires decide(candles[..i]) == Sell && st.book.position > 0.0
    ensures
      var r := Execute(Exact, c, st.book, Sell, candles[i].open, candles[i].ts);
      r.Some? && InStep(initial, c, candles, decide, i + 1, Counted(Carried(st, Sell, r.value, i)))
  {
    var candle := candles[i];
    var f := SellFill(Exact, c, candle.ts, candle.open, st.book.position);
    var after, trade := ApplySell(Exact, st.book, f), SellTrade(Exact, st.book, f);
    SellGoesAllOut(initial, c, st.book, candle.open, candle.ts);
    TradeInStep(c, candles, decide, i, st, after, trade);
  }

  lemma {:induction false} TradeInStep(
    c: Costs, candles: seq<Candle>, decide: Decider, i: nat, st: Bars, after: Book, trade: Trade)
    requires 0 < i < |candles| && decide(candles[..i]) == Sell && st.entryBar.Some? && st.entryBar.value < i
    requires EnteredAt(candles, decide, c, trade.entryTs, trade.entryPrice, st.entryBar.value)
    requires trade.exitTs == candles[i].ts && trade.exitPrice == candles[i].open * (1.0 - c.slippageRate)
    requires after.trades == st.book.trades + [trade] && |st.holding| == |st.book.trades|
    requires forall k :: 0 <= k < |st.holding| ==> NextBarTrade(candles, decide, c, st.book.trades[k], st.holding[k])
    ensures
      var holding := st.holding + [i - st.entryBar.value];
      && Sum(holding) == Sum(st.holding) + i - st.entryBar.value
      && forall k :: 0 <= k < |holding| ==> NextBarTrade(candles, decide, c, after.trades[k], holding[k])
  {
    assert RoundTrip(candles, decide, c, trade, i - st.entryBar.value, st.entryBar.value, i);
    SumAppend(st.holding, i - st.entryBar.value);
  }

  lemma {:induction false} CarriedInStep(
    initial: real, c: Costs, candles: seq<Candle>, decide: Decider, i: nat, st: Bars)
    requires Sane(c) && Priced(candles) && 0 < i < |candles|
    requires InStep(initial, c, candles, decide, i, st) && st.pending == Some(decide(candles[..i]))
    ensures
      var filled := FillPending(Exact, c, st, candles[i], i);
      filled.Some? && InStep(initial, c, candles, decide, i + 1, Counted(filled.value))
  {
    match st.pending.value
    case Hold =>
    case Buy => EntryInStep(initial, c, candles, decide, i, st);
    case Sell =>
      if st.book.position > 0.0 {
        ExitInStep(initial, c, candles, decide, i, st);
      }
  }

  /** On positive opens a backtest never raises. At every bar it is all in or all out and no money is lost; each closed
      trade was bought and sold at the opens right after its two signals; and the bars counted as exposed are the
      holding times of the closed trades plus that of the open one. */
  lemma {:induction false} RunInStep(initial: real, c: Costs, candles: seq<Candle>, decide: Decider, n: nat)
    requires Sane(c) && Priced(candles) && n <= |candles|
    ensures
      var r := RunTo(Exact, c, initial, candles, decide, n);
      && r.Some? && InStep(initial, c, candles, decide, n, r.value)
      && r.value.pending == if n == 0 then None else Some(decide(candles[..n]))
  {
    hide InStep, FillPending, CloseBar;
    if n == 0 {
      StartsInStep(initial, c, candles, decide);
    } else {
      RunInStep(initial, c, candles, decide, n - 1);
      var st := RunTo(Exact, c, initial, candles, decide, n - 1).value;
      OneMoreBar(Exact, c, initial, candles, decide, n - 1, st);
      if n > 1 {
        CarriedInStep(initial, c, candles, decide, n - 1, st);
      } else {
        FirstInStep(initial, c, candles, decide, st);
      }
      var filled := FillPending(Exact, c, st, candles[n - 1], n - 1).value;
      ClosedInStep(initial, c, candles, decide, n, filled, candles[n - 1], decide(candles[..n]));
    }
  }

  lemma {:induction false} StartsInStep(initial: real, c: Costs, candles: seq<Candle>, decide: Decider)
    ensures InStep(initial, c, candles, decide, 0, StartBars(initial))
  {
  }

  /** The first bar has nothing to carry out. */
  lemma {:induction false} FirstInStep(initial: real, c: Costs, candles: seq<Candle>, decide: Decider, st: Bars)
    requires candles != [] && st == StartBars(initial)
    ensures
      var filled := FillPending(Exact, c, st, candles[0], 0);
      filled.Some? && InStep(initial, c, candles, decide, 1, Counted(filled.value))
  {
  }

  lemma {:induction false} ClosedInStep(
    initial: real, c: Costs, candles: seq<Candle>, decide: Decider, n: nat, st: Bars, candle: Candle, action: Action)
    requires InStep(initial, c, candles, decide, n, Counted(st))
    ensures InStep(initial, c, candles, decide, n, CloseBar(Exact, st, candle, action))
    ensures CloseBar(Exact, st, candle, action).pending == Some(action)
  {
    hide AllIn, Conserved, EnteredAt, NextBarTrade;
  }

  /** A backtest that ends flat holds its initial cash plus the net of its trades, and its exposed bars are exactly the
      holding times it averages. */
  lemma {:induction false} FlatBacktest(initial: real, c: Costs, candles: seq<Candle>, decide: Decider)
    requires Sane(c) && Priced(candles)
    requires RunTo(Exact, c, initial, candles, decide, |candles|).Some?
    requires RunTo(Exact, c, initial, candles, decide, |candles|).value.book.position == 0.0
    ensures
      var st := RunTo(Exact, c, initial, candles, decide, |candles|).value;
      st.book.cash == initial + NetTotal(st.book.trades) && st.openBars == Sum(st.holding)
  {
    RunInStep(initial, c, candles, decide, |candles|);
  }
}
