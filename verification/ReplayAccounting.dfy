/** The replay's own profit formula against the account: a record's net is what trading its two fills gives. */
module ReplayAccounting {
  import opened Numerics
  import opened Replay
  import Portfolio
  import Risk
  import PaperSafety
  import ReplayLedger

  /** The record says of its fills what closing that entry at that price says. */
  predicate Booked(sc: Scenario, r: Record) {
    && r.entry.executionPrice == r.entry.tradePrice * (1.0 + sc.Slip())
    && r.exitExecutionPrice == r.exitTradePrice * (1.0 - sc.Slip())
    && r.grossPnl == (r.exitTradePrice - r.entry.tradePrice) * r.entry.quantity
    && r.slippage == sc.Slip() * (r.entry.tradePrice + r.exitTradePrice) * r.entry.quantity
    && r.fees == sc.feeRate * (r.entry.executionPrice + r.exitExecutionPrice) * r.entry.quantity
    && r.netPnl == r.grossPnl - r.slippage - r.fees
  }

  // ---- a record as two fills

  function BuyOf(sc: Scenario, r: Record): Portfolio.Fill {
    var p := r.entry;
    Portfolio.Fill(p.fillTs, Portfolio.Buy, p.tradePrice, p.executionPrice, p.quantity, p.quantity * p.executionPrice,
                   p.quantity * p.executionPrice * sc.feeRate, p.quantity * (p.executionPrice - p.tradePrice))
  }

  function SellOf(sc: Scenario, r: Record): Portfolio.Fill {
    var q := r.entry.quantity;
    Portfolio.Fill(r.exitFillTs, Portfolio.Sell, r.exitTradePrice, r.exitExecutionPrice, q, q * r.exitExecutionPrice,
                   q * r.exitExecutionPrice * sc.feeRate, q * (r.exitTradePrice - r.exitExecutionPrice))
  }

  /** The trade an account reports for the record: its gross is on execution prices, so net of slippage. */
  function TradeOf(r: Record): Portfolio.Trade {
    Portfolio.Trade(r.entry.fillTs, r.exitFillTs, r.entry.executionPrice, r.exitExecutionPrice, r.entry.quantity,
                    r.grossPnl - r.slippage, r.fees, r.slippage, r.netPnl)
  }

  lemma {:induction false} SumOfCosts(sc: Scenario, r: Record)
    requires Booked(sc, r)
    ensures BuyOf(sc, r).fee + SellOf(sc, r).fee == r.fees
    ensures BuyOf(sc, r).slippageCost + SellOf(sc, r).slippageCost == r.slippage
    ensures (r.exitExecutionPrice - r.entry.executionPrice) * r.entry.quantity == r.grossPnl - r.slippage
    ensures SellOf(sc, r).notional - BuyOf(sc, r).notional == r.grossPnl - r.slippage
  {
    var q, p, x, s := r.entry.quantity, r.entry.tradePrice, r.exitTradePrice, sc.Slip();
    FactorFee(q, r.entry.executionPrice, r.exitExecutionPrice, sc.feeRate);
    FactorSlip(q, p, x, s);
  }

  lemma {:induction false} FactorFee(q: real, a: real, b: real, rate: real)
    ensures q * a * rate + q * b * rate == rate * (a + b) * q
  {
    assert q * a * rate == rate * a * q;
    assert q * b * rate == rate * b * q;
    assert rate * (a + b) == rate * a + rate * b;
  }

  lemma {:induction false} FactorSlip(q: real, p: real, x: real, s: real)
    ensures q * (p * (1.0 + s) - p) + q * (x - x * (1.0 - s)) == s * (p + x) * q
    ensures (x * (1.0 - s) - p * (1.0 + s)) * q == (x - p) * q - s * (p + x) * q
    ensures q * (x * (1.0 - s)) - q * (p * (1.0 + s)) == (x - p) * q - s * (p + x) * q
  {
    assert p * (1.0 + s) == p + s * p;
    assert x * (1.0 - s) == x - s * x;
    assert s * (p + x) == s * p + s * x;
  }

  predicate Flat(b: Portfolio.Book) {
    b.position == 0.0 && b.entryFees == 0.0 && b.entrySlippage == 0.0
  }

  /** Buying and selling the record's fills on a flat account that can pay for them leaves it flat, richer by exactly
      the record's net, with exactly the record's trade. */
  lemma {:induction false} RecordIsTrade(sc: Scenario, r: Record, b: Portfolio.Book)
    requires Booked(sc, r) && r.entry.quantity > 0.0 && Flat(b)
    requires Portfolio.ApplyBuy(Exact, b, BuyOf(sc, r)).Some?
    ensures
      var after := Portfolio.ApplySell(Exact, Portfolio.ApplyBuy(Exact, b, BuyOf(sc, r)).value, SellOf(sc, r));
      && Flat(after) && after.cash == b.cash + r.netPnl && after.realizedPnl == b.realizedPnl + r.netPnl
      && after.trades == b.trades + [TradeOf(r)]
  {
    SumOfCosts(sc, r);
    PaperSafety.SellAll(Portfolio.ApplyBuy(Exact, b, BuyOf(sc, r)).value, SellOf(sc, r));
  }

  // ---- a whole ledger as one account

  /** The account after the fills of all the records in order; `None` if some entry costs more than its cash. */
  function AccountOf(sc: Scenario, capital: real, rs: seq<Record>): Option<Portfolio.Book> {
    if rs == [] then Some(Portfolio.OpeningBook(capital))
    else
      var r := rs[|rs| - 1];
      match AccountOf(sc, capital, rs[..|rs| - 1])
      case None => None
      case Some(before) =>
        match Portfolio.ApplyBuy(Exact, before, BuyOf(sc, r))
        case None => None
        case Some(held) => Some(Portfolio.ApplySell(Exact, held, SellOf(sc, r)))
  }

  function TradesOf(rs: seq<Record>): (ts: seq<Portfolio.Trade>)
    ensures |ts| == |rs| && forall i :: 0 <= i < |rs| ==> ts[i] == TradeOf(rs[i])
  {
    seq(|rs|, i requires 0 <= i < |rs| => TradeOf(rs[i]))
  }

  predicate AllBooked(sc: Scenario, rs: seq<Record>) {
    forall r :: r in rs ==> Booked(sc, r) && r.entry.quantity > 0.0
  }

  /** The ledger alone says whether an account could pay: no entry, fee included, costs more than the capital plus the
      net of the records before it. */
  predicate Paid(sc: Scenario, capital: real, rs: seq<Record>) {
    forall i :: 0 <= i < |rs| ==>
      BuyOf(sc, rs[i]).notional + BuyOf(sc, rs[i]).fee
      <= capital + ReplayLedger.NetOf(rs[..i]) + Portfolio.CASH_SLACK
  }

  lemma {:induction false} PaidOneMore(sc: Scenario, capital: real, rs: seq<Record>)
    requires rs != []
    ensures
      var front, r := rs[..|rs| - 1], rs[|rs| - 1];
      Paid(sc, capital, rs)
      <==> Paid(sc, capital, front)
           && BuyOf(sc, r).notional + BuyOf(sc, r).fee
              <= capital + ReplayLedger.NetOf(front) + Portfolio.CASH_SLACK
  {
    hide BuyOf, ReplayLedger.NetOf;
    var front := rs[..|rs| - 1];
    assert forall i :: 0 <= i < |front| ==> front[i] == rs[i] && front[..i] == rs[..i];
  }

  /** The account can pay for every entry exactly when the ledger says so, and then ends with the initial capital plus
      the ledger's net, its trades the ledger's records one by one. */
  lemma {:induction false} LedgerIsAccount(sc: Scenario, capital: real, rs: seq<Record>)
    requires AllBooked(sc, rs)
    ensures AccountOf(sc, capital, rs).Some? <==> Paid(sc, capital, rs)
    ensures AccountOf(sc, capital, rs).Some? ==>
      var b := AccountOf(sc, capital, rs).value;
      && Flat(b) && b.cash == capital + ReplayLedger.NetOf(rs) && b.realizedPnl == ReplayLedger.NetOf(rs)
      && b.trades == TradesOf(rs)
  {
    hide Booked, Paid;
    if rs == [] {
      NothingToPay(sc, capital);
    } else {
      var front, r := rs[..|rs| - 1], rs[|rs| - 1];
      assert r in rs;
      LedgerIsAccount(sc, capital, front);
      PaidOneMore(sc, capital, rs);
      if AccountOf(sc, capital, rs).Some? {
        RecordIsTrade(sc, r, AccountOf(sc, capital, front).value);
        assert TradesOf(rs) == TradesOf(front) + [TradeOf(r)];
      }
    }
  }

  lemma {:induction false} NothingToPay(sc: Scenario, capital: real)
    ensures Paid(sc, capital, [])
  {
  }

  // ---- every record of a run is booked

  predicate BookedState(sc: Scenario, st: State) {
    && AllBooked(sc, st.records)
    && (st.position.Some? ==>
          && st.position.value.executionPrice == st.position.value.tradePrice * (1.0 + sc.Slip())
          && st.position.value.quantity > 0.0)
  }

  lemma {:induction false} FinishBooks(
    sc: Scenario, st: State, pos: Position, p: PendingExit, fillTs: int, fillIndex: nat, price: real)
    requires AllBooked(sc, st.records) && pos.quantity > 0.0
    requires pos.executionPrice == pos.tradePrice * (1.0 + sc.Slip())
    ensures BookedState(sc, Finish(sc, st, pos, p, fillTs, fillIndex, price))
  {
    var record := CloseRecord(sc, pos, p, fillTs, fillIndex, price);
    assert Booked(sc, record);
    assert Finish(sc, st, pos, p, fillTs, fillIndex, price).records == st.records + [record];
  }

  /** Entries have a positive quantity: the fixed one, or the one the risk engine sizes. */
  predicate Sizes(sc: Scenario) {
    sc.dynamic || sc.quantity > 0.0
  }

  lemma {:induction false} SizedPositive(sc: Scenario, rolled: State, d: Decision)
    requires EvaluateRisk(sc, rolled, d).approved
    ensures EvaluateRisk(sc, rolled, d).size.Some? && EvaluateRisk(sc, rolled, d).size.value.quantity > 0.0
  {
    Risk.EntryWithinCap(
      sc.risk, Risk.TradeProposal(Portfolio.Buy, sc.intensity, d.referencePrice, d.atr),
      Risk.RiskState(0, rolled.realizedToday, rolled.peakEquity, sc.risk.capital + rolled.realizedTotal, false));
  }

  lemma {:induction false} BuyBooks(sc: Scenario, st: State, d: Decision, trade: ReplayTrade, index: nat)
    requires Sizes(sc) && BookedState(sc, st) && TakeBuy(sc, st, d, trade, index).Ok?
    ensures BookedState(sc, TakeBuy(sc, st, d, trade, index).value)
  {
    if sc.dynamic && EvaluateRisk(sc, RollDay(st, trade.ts), d).approved {
      SizedPositive(sc, RollDay(st, trade.ts), d);
    }
  }

  lemma {:induction false} SellBooks(sc: Scenario, st: State, d: Decision, trade: ReplayTrade, index: nat)
    requires BookedState(sc, st)
    ensures BookedState(sc, TakeSell(sc, st, d, trade, index))
  {
    if st.position.Some? {
      FinishBooks(sc, st, Seen(st.position.value, trade.price),
                  PendingExit("strategy_exit", d.signalTs, None, trade.price, d.referencePrice), trade.ts, index,
                  trade.price);
    }
  }

  lemma {:induction false} TakeBooks(sc: Scenario, st: State, d: Decision, trade: ReplayTrade, index: nat)
    requires Sizes(sc) && BookedState(sc, st) && Take(sc, st, d, trade, index).Ok?
    ensures BookedState(sc, Take(sc, st, d, trade, index).value)
  {
    if d.action == "buy" {
      BuyBooks(sc, st, d, trade, index);
    } else {
      SellBooks(sc, st, d, trade, index);
    }
  }

  lemma {:induction false} DrainBooks(sc: Scenario, st: State, trade: ReplayTrade, index: nat)
    requires Sizes(sc) && BookedState(sc, st) && Drain(sc, st, trade, index).Ok?
    ensures BookedState(sc, Drain(sc, st, trade, index).value)
    decreases |st.queue|
  {
    hide Take;
    if st.queue != [] {
      var popped := st.(queue := st.queue[1..]);
      TakeKeepsQueue(sc, popped, st.queue[0], trade, index);
      TakeBooks(sc, popped, st.queue[0], trade, index);
      DrainBooks(sc, Take(sc, popped, st.queue[0], trade, index).value, trade, index);
    }
  }

  lemma {:induction false} AdvanceBooks(env: Env, st: State, cutoff: int)
    requires BookedState(env.scenario, st) && Advance(env, st, cutoff).Ok?
    ensures BookedState(env.scenario, Advance(env, st, cutoff).value)
    decreases |env.candles| - st.candleI
  {
    if st.candleI < |env.candles| && env.candles[st.candleI].closeTime <= cutoff {
      ConfirmBooks(env, st);
      AdvanceBooks(env, Confirm(env, st).value, cutoff);
    }
  }

  lemma {:induction false} ConfirmBooks(env: Env, st: State)
    requires BookedState(env.scenario, st) && st.candleI < |env.candles| && Confirm(env, st).Ok?
    ensures BookedState(env.scenario, Confirm(env, st).value)
  {
  }

  lemma {:induction false} EvalBooks(sc: Scenario, st: State, trade: ReplayTrade, index: nat)
    requires BookedState(sc, st)
    ensures BookedState(sc, RiskEval(sc, st, trade, index))
  {
  }

  lemma {:induction false} StepBooks(env: Env, st: State, n: nat)
    requires n < |env.trades| && Sizes(env.scenario) && BookedState(env.scenario, st) && Step(env, st, n).Ok?
    ensures BookedState(env.scenario, Step(env, st, n).value)
  {
    hide Drain, RiskEval;
    var trade, sc := env.trades[n], env.scenario;
    AdvanceBooks(env, st, trade.ts);
    var confirmed := Advance(env, st, trade.ts).value;
    if confirmed.pending.Some? {
      FinishBooks(sc, confirmed, confirmed.position.value, confirmed.pending.value, trade.ts, n, trade.price);
    }
    var filled := FillPendingExit(sc, confirmed, trade, n).value;
    DrainBooks(sc, filled, trade, n);
    EvalBooks(sc, Drain(sc, filled, trade, n).value, trade, n);
  }

  lemma {:induction false} StartBooks(env: Env)
    ensures BookedState(env.scenario, Start(env))
  {
  }

  predicate BookedOutcome(sc: Scenario, r: Outcome<State>) {
    r.Ok? ==> BookedState(sc, r.value)
  }

  lemma {:induction false} AfterBooks(env: Env, n: nat)
    requires n <= |env.trades| && Sizes(env.scenario)
    ensures BookedOutcome(env.scenario, After(env, n))
  {
    hide Step, BookedState;
    if n == 0 {
      StartBooks(env);
    } else {
      AfterBooks(env, n - 1);
      if After(env, n - 1).Raised? {
        AfterRaised(env, n - 1);
      } else {
        AfterOne(env, After(env, n - 1).value, n - 1);
        if Step(env, After(env, n - 1).value, n - 1).Ok? {
          StepBooks(env, After(env, n - 1).value, n - 1);
        }
      }
    }
  }

  lemma {:induction false} EdgeBooks(env: Env, st: State)
    requires BookedState(env.scenario, st) && FillPendingEdge(env, st).Ok?
    ensures BookedState(env.scenario, FillPendingEdge(env, st).value)
  {
    if st.pending.Some? {
      var p := st.pending.value;
      FinishBooks(env.scenario, st, st.position.value, p, p.triggerTs, p.triggerIndex.value, p.triggerPrice);
    }
  }

  lemma {:induction false} EndBooks(env: Env, st: State)
    requires BookedState(env.scenario, st) && CloseAtEnd(env, st).Ok?
    ensures BookedState(env.scenario, CloseAtEnd(env, st).value)
  {
    if st.position.Some? {
      var last, k := env.trades[|env.trades| - 1], |env.trades| - 1;
      FinishBooks(env.scenario, st, st.position.value,
                  PendingExit("end_of_dataset", last.ts, Some(k), last.price, last.price), last.ts, k, last.price);
    }
  }

  lemma {:induction false} SettleBooks(env: Env, st: State)
    requires BookedState(env.scenario, st) && Settle(env, st).Ok?
    ensures BookedState(env.scenario, Settle(env, st).value)
  {
    EdgeBooks(env, st);
    EndBooks(env, FillPendingEdge(env, st).value);
  }

  lemma {:induction false} SweepBooks(env: Env, st: State)
    requires BookedState(env.scenario, st) && Sweep(env, st).Ok?
    ensures BookedState(env.scenario, Sweep(env, st).value)
  {
    hide Settle, BookedState;
    AdvanceBooks(env, st, SWEEP_CUTOFF);
    SettleBooks(env, LeaveUnfilled(Advance(env, st, SWEEP_CUTOFF).value));
  }

  lemma {:induction false} RunBooks(env: Env)
    requires Sizes(env.scenario) && Run(env).Ok?
    ensures AllBooked(env.scenario, Run(env).value.records)
  {
    AfterBooks(env, |env.trades|);
    SweepBooks(env, After(env, |env.trades|).value);
  }

  /** The two engines' books agree: run the fills of any complete replay through the account, and it can pay for every
      entry exactly when no entry costs more than the capital plus the net of the records before it; then it ends flat,
      with the capital plus the replay's net, and its trades are the replay's records. */
  lemma {:induction false} RunBooksAsAccount(env: Env, capital: real)
    requires Sizes(env.scenario) && Run(env).Ok?
    ensures
      var rs := Run(env).value.records;
      var account := AccountOf(env.scenario, capital, rs);
      && (account.Some? <==> Paid(env.scenario, capital, rs))
      && (account.Some? ==>
            && account.value.position == 0.0 && account.value.cash == capital + ReplayLedger.NetOf(rs)
            && account.value.trades == TradesOf(rs))
  {
    RunBooks(env);
    LedgerIsAccount(env.scenario, capital, Run(env).value.records);
  }
}
