/** What each bar of a backtest does, on its signal and its prices alone. */
module BacktestMeaning {
  import opened Numerics
  import opened Portfolio
  import opened Conservation
  import opened Indicators
  import opened Backtest
  import opened BacktestProofs

  /** The whole cash has become shares at the price paid, and the fee on them. */
  predicate Bought(c: Costs, before: Book, after: Book, candle: Candle) {
    var paid := candle.open * (1.0 + c.slippageRate);
    && after.cash == 0.0 && after.position * paid * (1.0 + c.feeRate) == before.cash
    && after.avgEntry == Some(paid) && after.entryTs == Some(candle.ts)
    && after.totalFees == before.totalFees + after.position * paid * c.feeRate
    && after.totalSlippage == before.totalSlippage + after.position * (paid - candle.open)
    && after.trades == before.trades
  }

  /** Every share has become cash at the price got, less the fee on it. */
  predicate SoldOut(c: Costs, before: Book, after: Book, candle: Candle) {
    var got := candle.open * (1.0 - c.slippageRate);
    && after.position == 0.0 && after.cash == before.cash + before.position * got * (1.0 - c.feeRate)
    && after.totalFees == before.totalFees + before.position * got * c.feeRate
    && after.totalSlippage == before.totalSlippage + before.position * (candle.open - got)
    && |after.trades| == |before.trades| + 1 && after.trades[..|before.trades|] == before.trades
  }

  predicate Follows(c: Costs, before: Book, after: Book, signal: Action, candle: Candle) {
    match signal
    case Buy => if before.cash > 0.0 then Bought(c, before, after, candle) else after == before
    case Sell => if before.position > 0.0 then SoldOut(c, before, after, candle) else after == before
    case Hold => after == before
  }

  // ---- one order

  lemma {:induction false} SharesOfCash(cash: real, over: real, exec: real)
    requires over != 0.0 && exec != 0.0
    ensures cash / over / exec * exec * over == cash
  {
  }

  lemma {:induction false} BuyFollows(c: Costs, b: Book, candle: Candle)
    requires Sane(c) && candle.open > 0.0 && AllIn(b) && b.cash > 0.0
    ensures
      var r := Execute(Exact, c, b, Buy, candle.open, candle.ts);
      r.Some? && Bought(c, b, r.value, candle)
  {
    BuyFillFacts(c, candle.ts, candle.open, b.cash);
    SharesOfCash(b.cash, 1.0 + c.feeRate, candle.open * (1.0 + c.slippageRate));
  }

  lemma {:induction false} NetOfFee(amount: real, rate: real)
    ensures amount - amount * rate == amount * (1.0 - rate)
  {
  }

  lemma {:induction false} SellFollows(c: Costs, b: Book, candle: Candle)
    requires AllIn(b) && b.position > 0.0
    ensures
      var r := Execute(Exact, c, b, Sell, candle.open, candle.ts);
      r.Some? && SoldOut(c, b, r.value, candle)
  {
    var f := SellFill(Exact, c, candle.ts, candle.open, b.position);
    WholeShare(b.position, f.fee);
    WholeShare(b.position, f.notional);
    WholeShare(b.position, f.slippageCost);
    NetOfFee(f.notional, c.feeRate);
  }

  // ---- every bar of every run

  /** What an account is worth at a price. */
  function Worth(b: Book, price: real): real {
    b.cash + b.position * price
  }

  /** At the open of a bar the account does what the signal of the bar before says; at its close the account is marked,
      and its own signal is counted. The first bar has no signal to carry out. */
  lemma {:induction false} NextBarActs(initial: real, c: Costs, candles: seq<Candle>, decide: Decider, i: nat)
    requires Sane(c) && Priced(candles) && i < |candles|
    ensures
      var was, now := RunTo(Exact, c, initial, candles, decide, i), RunTo(Exact, c, initial, candles, decide, i + 1);
      && was.Some? && now.Some?
      && Follows(c, was.value.book, now.value.book, if i == 0 then Hold else decide(candles[..i]), candles[i])
      && now.value.equity == was.value.equity + [Worth(now.value.book, candles[i].close)]
      && now.value.signals == was.value.signals + (if decide(candles[..i + 1]).Hold? then 0 else 1)
  {
    hide InStep, OneBar, AllIn, Follows, Worth;
    RunInStep(initial, c, candles, decide, i);
    var st := RunTo(Exact, c, initial, candles, decide, i).value;
    OneMoreBar(Exact, c, initial, candles, decide, i, st);
    InStepAllIn(initial, c, candles, decide, i, st);
    BarActs(c, st, candles[i], i, decide(candles[..i + 1]));
    assert st.pending.GetOr(Hold) == if i == 0 then Hold else decide(candles[..i]);
  }

  lemma {:induction false} BarActs(c: Costs, st: Bars, candle: Candle, i: nat, action: Action)
    requires Sane(c) && candle.open > 0.0 && AllIn(st.book)
    ensures
      var r := OneBar(Exact, c, st, candle, i, action);
      && r.Some? && Follows(c, st.book, r.value.book, st.pending.GetOr(Hold), candle)
      && r.value.equity == st.equity + [Worth(r.value.book, candle.close)]
      && r.value.signals == st.signals + (if action.Hold? then 0 else 1)
  {
    hide Execute, AllIn, Follows;
    if st.pending.Some? {
      ExecuteFollows(c, st.book, st.pending.value, candle);
      assert st.pending.GetOr(Hold) == st.pending.value;
    } else {
      HoldFollows(c, st.book, candle);
      assert st.pending.GetOr(Hold) == Hold;
    }
    var r := OneBar(Exact, c, st, candle, i, action).value;
    assert r.equity == st.equity + [Equity(Exact, r.book, candle.close)];
    assert Equity(Exact, r.book, candle.close) == Worth(r.book, candle.close);
  }

  lemma {:induction false} HoldFollows(c: Costs, b: Book, candle: Candle)
    ensures Follows(c, b, b, Hold, candle)
  {
  }

  lemma {:induction false} InStepAllIn(initial: real, c: Costs, candles: seq<Candle>, decide: Decider, i: nat, st: Bars)
    requires InStep(initial, c, candles, decide, i, st)
    ensures AllIn(st.book)
  {
  }

  lemma {:induction false} ExecuteFollows(c: Costs, b: Book, action: Action, candle: Candle)
    requires Sane(c) && candle.open > 0.0 && AllIn(b)
    ensures
      var r := Execute(Exact, c, b, action, candle.open, candle.ts);
      r.Some? && Follows(c, b, r.value, action, candle)
  {
    hide Bought, SoldOut;
    match action
    case Hold =>
    case Buy =>
      if b.cash > 0.0 {
        BuyFollows(c, b, candle);
      }
    case Sell =>
      if b.position > 0.0 {
        SellFollows(c, b, candle);
      }
  }

  // ---- when a backtest is invested

  /** Before bar `n` some signal was to buy, and none after it to sell. The signal of the last bar shown counts only at
      the next open. */
  ghost predicate BuyStands(candles: seq<Candle>, decide: Decider, n: nat)
    requires n <= |candles|
  {
    exists j :: 1 <= j < n && decide(candles[..j]) == Buy
                && forall k :: j < k < n ==> decide(candles[..k]) != Sell
  }

  lemma {:induction false} StandsStep(candles: seq<Candle>, decide: Decider, n: nat)
    requires 0 < n < |candles|
    ensures
      var signal := decide(candles[..n]);
      BuyStands(candles, decide, n + 1) <==> signal == Buy || (signal != Sell && BuyStands(candles, decide, n))
  {
    var signal := decide(candles[..n]);
    if signal != Sell && BuyStands(candles, decide, n) {
      var j :| 1 <= j < n && decide(candles[..j]) == Buy && forall k :: j < k < n ==> decide(candles[..k]) != Sell;
      assert forall k :: j < k < n + 1 ==> decide(candles[..k]) != Sell;
    }
  }

  /** With some cash to begin with and fees below 100 percent, a backtest is invested at the close of a bar exactly when
      a buy signal of an earlier bar still stands, however often signals repeat. */
  lemma {:induction false} InvestedIffBuyStands(
    initial: real, c: Costs, candles: seq<Candle>, decide: Decider, n: nat)
    requires Sane(c) && c.feeRate < 1.0 && initial > 0.0 && Priced(candles) && n <= |candles|
    ensures
      var r := RunTo(Exact, c, initial, candles, decide, n);
      && r.Some? && (r.value.book.position > 0.0 <==> BuyStands(candles, decide, n))
      && (r.value.book.position > 0.0 || r.value.book.cash > 0.0)
  {
    hide BuyStands, RunTo, Follows, InStep, AllIn;
    if n == 0 {
      StartsFlat(initial, c, candles, decide);
    } else {
      InvestedIffBuyStands(initial, c, candles, decide, n - 1);
      NextBarActs(initial, c, candles, decide, n - 1);
      RunInStep(initial, c, candles, decide, n - 1);
      RunInStep(initial, c, candles, decide, n);
      InStepAllIn(initial, c, candles, decide, n - 1, RunTo(Exact, c, initial, candles, decide, n - 1).value);
      InStepAllIn(initial, c, candles, decide, n, RunTo(Exact, c, initial, candles, decide, n).value);
      var was := RunTo(Exact, c, initial, candles, decide, n - 1).value.book;
      var now := RunTo(Exact, c, initial, candles, decide, n).value.book;
      var signal := if n == 1 then Hold else decide(candles[..n - 1]);
      FollowsFunded(c, was, now, signal, candles[n - 1]);
      if n > 1 {
        StandsStep(candles, decide, n - 1);
      } else {
        StartsFlat(initial, c, candles, decide);
      }
    }
  }

  lemma {:induction false} StartsFlat(initial: real, c: Costs, candles: seq<Candle>, decide: Decider)
    ensures RunTo(Exact, c, initial, candles, decide, 0) == Some(StartBars(initial))
    ensures !BuyStands(candles, decide, 0) && (|candles| > 0 ==> !BuyStands(candles, decide, 1))
  {
  }

  lemma {:induction false} BoughtHolds(c: Costs, before: Book, after: Book, candle: Candle)
    requires Bought(c, before, after, candle) && before.cash > 0.0 && after.position >= 0.0
    ensures after.position > 0.0
  {
    if after.position == 0.0 {
      NothingPaid(candle.open * (1.0 + c.slippageRate), 1.0 + c.feeRate);
    }
  }

  lemma {:induction false} NothingPaid(price: real, over: real)
    ensures 0.0 * price * over == 0.0
  {
  }

  /** What is left of the price of some shares after both costs. */
  function Proceeds(q: real, price: real, kept: real, left: real): real {
    q * (price * kept) * left
  }

  lemma {:induction false} SoldCash(c: Costs, before: Book, after: Book, candle: Candle)
    requires SoldOut(c, before, after, candle)
    ensures after.cash
      == before.cash + Proceeds(before.position, candle.open, 1.0 - c.slippageRate, 1.0 - c.feeRate)
  {
  }

  lemma {:induction false} SomethingLeft(q: real, price: real, kept: real, left: real)
    requires q > 0.0 && price > 0.0 && kept > 0.0 && left > 0.0
    ensures Proceeds(q, price, kept, left) > 0.0
  {
    var got := price * kept;
    PositiveProduct(price, kept);
    PositiveProduct(q, got);
    var proceeds := q * got;
    PositiveProduct(proceeds, left);
  }

  lemma {:induction false} SoldFunded(c: Costs, before: Book, after: Book, candle: Candle)
    requires Sane(c) && c.feeRate < 1.0 && candle.open > 0.0
    requires SoldOut(c, before, after, candle) && before.cash == 0.0 && before.position > 0.0
    ensures after.cash > 0.0
  {
    hide SoldOut, Proceeds;
    SoldCash(c, before, after, candle);
    SomethingLeft(before.position, candle.open, 1.0 - c.slippageRate, 1.0 - c.feeRate);
  }

  lemma {:induction false} FollowsFunded(c: Costs, was: Book, now: Book, signal: Action, candle: Candle)
    requires Sane(c) && c.feeRate < 1.0 && candle.open > 0.0 && AllIn(was) && (was.position > 0.0 || was.cash > 0.0)
    requires Follows(c, was, now, signal, candle) && AllIn(now)
    ensures now.position > 0.0 || now.cash > 0.0
    ensures now.position > 0.0 <==> signal == Buy || (signal != Sell && was.position > 0.0)
  {
    hide Bought, SoldOut;
    if signal == Buy && was.cash > 0.0 {
      BoughtHolds(c, was, now, candle);
    } else if signal == Sell && was.position > 0.0 {
      SoldPosition(c, was, now, candle);
      SoldFunded(c, was, now, candle);
    }
  }

  lemma {:induction false} SoldPosition(c: Costs, before: Book, after: Book, candle: Candle)
    requires SoldOut(c, before, after, candle)
    ensures after.position == 0.0
  {
  }
}
