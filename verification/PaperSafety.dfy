/** What every paper session keeps, in exact arithmetic: long-only, solvent, in step with its account. */
module PaperSafety {
  import opened Numerics
  import opened Portfolio
  import opened Risk
  import opened PaperTrading
  import Conservation

  /** Exact arithmetic, costs between nothing and the whole price, and one open position at most. */
  predicate SoundSetup(su: Setup) {
    && su.ar.Exact?
    && 0.0 <= su.takerBps <= 10_000.0
    && 0.0 <= su.slippageBps <= 10_000.0
    && su.risk.capital > 0.0
    && su.risk.maxDrawdown <= 1.0
    && su.risk.maxOpenPositions <= 1
  }

  /** Moreover a taker fee of at most 10 bps, which is what the cash adjustment of a buy leaves room for. */
  predicate SafeSetup(su: Setup) {
    SoundSetup(su) && su.takerBps <= 10.0
  }

  /** The engine's own position and the account agree. */
  predicate Tracks(st: EngineState) {
    && (st.position.Some? <==> st.book.position > 0.0)
    && (st.position.Some? ==>
          && st.position.value.quantity == st.book.position
          && st.book.avgEntry == Some(st.position.value.entryPrice)
          && st.book.entryTs == Some(st.position.value.entryTs))
  }

  predicate Solvent(su: Setup, st: EngineState) {
    && Tracks(st)
    && Conservation.Sound(st.book)
    && st.book.cash >= -CASH_SLACK
    && st.peakEquity >= su.risk.capital
    && (st.position.None? ==> st.book.entryFees == 0.0 && st.book.entrySlippage == 0.0)
  }

  predicate Ordered(ticks: seq<Tick>) {
    forall i, j :: 0 <= i < j < |ticks| ==> ticks[i].ts <= ticks[j].ts
  }

  predicate Priced(ticks: seq<Tick>) {
    forall i :: 0 <= i < |ticks| ==> ticks[i].price >= 0.0
  }

  // ---- the two order paths

  lemma {:induction false} Rates(su: Setup)
    requires SoundSetup(su)
    ensures 0.0 <= su.FeeRate() <= 1.0 && 0.0 <= su.SlippageRate() <= 1.0
    ensures SafeSetup(su) ==> su.FeeRate() <= 0.001
  {
  }

  lemma {:induction false} ExecPrices(su: Setup, price: real)
    requires SoundSetup(su) && price >= 0.0
    ensures su.SellPrice(price) == price * (1.0 - su.SlippageRate()) && su.SellPrice(price) >= 0.0
    ensures su.BuyPrice(price) == price * (1.0 + su.SlippageRate()) && su.BuyPrice(price) >= price
  {
    Rates(su);
    var kept := 1.0 - su.SlippageRate();
    assert price * kept >= 0.0;
    var rate := su.SlippageRate();
    assert price * rate >= 0.0;
    assert price * (1.0 + rate) == price + price * rate;
  }

  /** Selling exactly the position: everything pending is charged, and the account is flat. */
  lemma {:induction false} SellAll(b: Book, f: Fill)
    requires b.position > 0.0 && f.quantity == b.position
    ensures
      var net := (f.execPrice - b.avgEntry.GetOr(0.0)) * f.quantity - (b.entryFees + f.fee);
      ApplySell(Exact, b, f) == b.(
        cash := b.cash + (f.notional - f.fee), position := 0.0, avgEntry := None, entryTs := None,
        entryFees := 0.0, entrySlippage := 0.0,
        realizedPnl := b.realizedPnl + net,
        totalFees := b.totalFees + f.fee, totalSlippage := b.totalSlippage + f.slippageCost,
        trades := b.trades + [
          Trade(b.entryTs.GetOr(0), f.ts, b.avgEntry.GetOr(0.0), f.execPrice, f.quantity,
                (f.execPrice - b.avgEntry.GetOr(0.0)) * f.quantity, b.entryFees + f.fee,
                b.entrySlippage + f.slippageCost, net)])
  {
    var after, trade := ApplySell(Exact, b, f), SellTrade(Exact, b, f);
    assert Min(f.quantity, b.position) == f.quantity;
    assert f.quantity / f.quantity == 1.0;
    assert after.cash == b.cash + (f.notional - f.fee);
    assert trade.fees == b.entryFees + f.fee;
    assert trade.slippage == b.entrySlippage + f.slippageCost;
    assert trade.grossPnl == (f.execPrice - b.avgEntry.GetOr(0.0)) * f.quantity;
    assert after.totalFees == b.totalFees + f.fee;
    assert after.totalSlippage == b.totalSlippage + f.slippageCost;
    assert after.entryFees == 0.0 && after.entrySlippage == 0.0;
    assert after.position == 0.0;
    assert after.realizedPnl == b.realizedPnl + trade.netPnl;
  }

  lemma {:induction false} PositiveProduct(x: real, y: real)
    requires x > 0.0 && y > 0.0
    ensures x * y > 0.0
  {
  }

  /** The fill of an approved buy, whether or not it turns out to be affordable. */
  lemma {:induction false} BoughtFill(su: Setup, cash: real, sized: real, price: real, ts: int)
    requires SoundSetup(su) && price > 0.0 && sized > 0.0 && cash > 0.0
    ensures
      var f := BuyFill(su, cash, sized, price, ts);
      f.quantity > 0.0 && f.execPrice > 0.0 && f.fee >= 0.0 && f.notional == f.quantity * f.execPrice
  {
    Rates(su);
    ExecPrices(su, price);
    var f, rate := BuyFill(su, cash, sized, price, ts), su.FeeRate();
    PositiveProduct(f.quantity, f.execPrice);
    assert f.notional * rate >= 0.0;
  }

  lemma {:induction false} Affordable(su: Setup, cash: real, sized: real, price: real, ts: int)
    requires SafeSetup(su) && price > 0.0 && sized > 0.0 && cash > 0.0
    ensures
      var f := BuyFill(su, cash, sized, price, ts);
      f.notional + f.fee <= cash + CASH_SLACK
  {
    Rates(su);
    ExecPrices(su, price);
    var f := BuyFill(su, cash, sized, price, ts);
    var exec := su.BuyPrice(price);
    var rate := su.FeeRate();
    if f.quantity != sized {
      var affordable := cash / 1.001;
      assert (affordable / exec) * exec == affordable;
      assert affordable * rate <= affordable * 0.001;
      assert affordable * 1.001 == cash;
    }
  }

  /** A buy on a flat account keeps it solvent, raised or not; it only raises above the safe fee. */
  lemma {:induction false} OpenKeeps(
    su: Setup, st: EngineState, sized: real, price: real, stop: real, target: Option<real>, ts: int)
    requires SoundSetup(su) && Solvent(su, st) && st.position.None?
    requires sized > 0.0 && price > 0.0 && st.book.cash > 0.0
    ensures
      var (next, outcome) := Open(su, st, sized, price, stop, target, ts);
      && Solvent(su, next) && next.book.trades == st.book.trades
      && (outcome.Done? ==> next.position.Some?) && (!outcome.Done? ==> next == st && outcome == BuyExceedsCash)
      && (SafeSetup(su) ==> outcome.Done?)
  {
    hide BuyFill;
    BoughtFill(su, st.book.cash, sized, price, ts);
    if SafeSetup(su) {
      Affordable(su, st.book.cash, sized, price, ts);
    }
    BuyFillStamps(su, st.book.cash, sized, price, ts);
  }

  lemma {:induction false} BuyFillStamps(su: Setup, cash: real, sized: real, price: real, ts: int)
    ensures BuyFill(su, cash, sized, price, ts).ts == ts && BuyFill(su, cash, sized, price, ts).action.Buy?
  {
  }

  lemma {:induction false} NetProceeds(quantity: real, exec: real, rate: real)
    requires quantity >= 0.0 && exec >= 0.0 && 0.0 <= rate <= 1.0
    ensures quantity * exec >= 0.0 && quantity * exec - (quantity * exec) * rate >= 0.0
  {
    var notional, kept := quantity * exec, 1.0 - rate;
    assert notional * kept >= 0.0;
  }

  lemma {:induction false} CloseKeeps(su: Setup, st: EngineState, price: real, ts: int, reason: string)
    requires SoundSetup(su) && Solvent(su, st) && st.position.Some? && price >= 0.0
    ensures
      var (next, event) := Close(su, st, price, ts, reason);
      && Solvent(su, next) && next.position.None?
      && |next.book.trades| == |st.book.trades| + 1 && next.book.trades[..|st.book.trades|] == st.book.trades
      && next.book.trades[|st.book.trades|].exitTs == ts
      && next.realizedToday == st.realizedToday + next.book.trades[|st.book.trades|].netPnl
  {
    Rates(su);
    ExecPrices(su, price);
    var fill := SellFill(su, price, st.position.value.quantity, ts);
    SellAll(st.book, fill);
    NetProceeds(fill.quantity, fill.execPrice, su.FeeRate());
  }

  /** A buy is only ever approved on a flat account with cash in it. */
  lemma {:induction false} ApprovedBuy(
    su: Setup, st: EngineState, killActive: bool, d: Decision, price: real, atr: Option<real>)
    requires SoundSetup(su) && Solvent(su, st) && d.action.Buy?
    requires
      Evaluate(su.ar, su.risk, TradeProposal(d.action, d.intensity, price, atr),
               RiskView(su, st, killActive, price)).approved
    ensures st.position.None? && st.book.cash > 0.0 && price > 0.0
    ensures !DailyLossExceeded(su.ar, st.realizedToday, su.risk.capital, su.risk)
  {
    var proposal := TradeProposal(d.action, d.intensity, price, atr);
    EntryWithinCap(su.risk, proposal, RiskView(su, st, killActive, price));
    EntryNeedsEquity(su.risk, proposal, RiskView(su, st, killActive, price));
  }

  lemma {:induction false} DecideKeeps(
    su: Setup, st: EngineState, killActive: bool, d: Decision, price: real, atr: Option<real>, ts: int)
    requires SoundSetup(su) && Solvent(su, st) && price >= 0.0
    ensures
      var (next, outcome) := Decide(su, st, killActive, d, price, atr, ts);
      Solvent(su, next) && outcome != OutOfOrder && (SafeSetup(su) ==> outcome.Done?)
  {
    var proposal := TradeProposal(d.action, d.intensity, price, atr);
    var view := RiskView(su, st, killActive, price);
    var verdict := Evaluate(su.ar, su.risk, proposal, view);
    var marked := MarkPeak(su, st, price);
    if verdict.approved && d.action.Sell? && st.position.Some? {
      CloseKeeps(su, marked, price, ts, "llm_sell");
    } else if verdict.approved && d.action.Buy? {
      ApprovedBuy(su, st, killActive, d, price, atr);
      EntryWithinCap(su.risk, proposal, view);
      OpenKeeps(su, marked, verdict.size.value.quantity, price, EntryStop(su, verdict, price), verdict.takeProfit, ts);
    }
  }

  /** One tick keeps the engine solvent and in step with its account, even when it raises; it raises for its order
      exactly on a timestamp going back, and for its cost only above the safe fee. */
  lemma {:induction false} TickKeepsSolvent(
    su: Setup, st: EngineState, killActive: bool, d: Decision, price: real, atr: Option<real>, ts: int)
    requires SoundSetup(su) && Solvent(su, st) && price >= 0.0
    ensures
      var (next, outcome) := OnPrice(su, st, killActive, d, price, atr, ts);
      && Solvent(su, next)
      && (outcome == OutOfOrder <==> st.lastTs.Some? && ts < st.lastTs.value)
      && (SafeSetup(su) ==> outcome != BuyExceedsCash)
  {
    if st.lastTs.None? || st.lastTs.value <= ts {
      var seen := Arrive(st, price, atr, ts);
      if seen.position.None? {
        DecideKeeps(su, seen, killActive, d, price, atr, ts);
      } else {
        var pos := Raise(su, seen.position.value, price, seen.lastAtr);
        var held := seen.(position := Some(pos));
        match ExitReason(pos, price) {
          case Some(reason) => CloseKeeps(su, held, price, ts, reason);
          case None => DecideKeeps(su, held, killActive, d, price, atr, ts);
        }
      }
    }
  }

  lemma {:induction false} DecideKeepsClock(
    su: Setup, st: EngineState, killActive: bool, d: Decision, price: real, atr: Option<real>, ts: int)
    ensures
      var (next, outcome) := Decide(su, st, killActive, d, price, atr, ts);
      next.lastTs == st.lastTs && next.day == st.day
  {
  }

  lemma {:induction false} TickStampsClock(
    su: Setup, st: EngineState, killActive: bool, d: Decision, price: real, atr: Option<real>, ts: int)
    requires st.lastTs.None? || st.lastTs.value <= ts
    ensures
      var (next, outcome) := OnPrice(su, st, killActive, d, price, atr, ts);
      next.lastTs == Some(ts) && next.day == Some(UtcDay(ts))
  {
    var seen := Arrive(st, price, atr, ts);
    if seen.position.None? {
      DecideKeepsClock(su, seen, killActive, d, price, atr, ts);
    } else {
      var (held, exit) := CheckExits(su, seen, price, ts);
      assert held.lastTs == seen.lastTs && held.day == seen.day;
      if exit.None? {
        DecideKeepsClock(su, held, killActive, d, price, atr, ts);
      }
    }
  }

  /** Long-only and solvent over whole sessions: in every state a session reaches the engine's position is the
      account's, cash is not negative and the peak not below the capital; and the ticks were in order. */
  lemma {:induction false} SessionStaysSolvent(su: Setup, ticks: seq<Tick>)
    requires SoundSetup(su) && Priced(ticks)
    ensures RunSession(su, ticks).Some? ==>
      var st := RunSession(su, ticks).value.state;
      && Ordered(ticks) && Solvent(su, st)
      && st.lastTs == if ticks == [] then None else Some(ticks[|ticks| - 1].ts)
  {
    hide OnPrice, Solvent;
    if ticks == [] {
      FreshSolvent(su);
    } else if RunSession(su, ticks).Some? {
      var before, t := ticks[..|ticks| - 1], ticks[|ticks| - 1];
      SessionStaysSolvent(su, before);
      var st := RunSession(su, before).value.state;
      TickKeepsSolvent(su, st, t.killActive, t.decision, t.price, t.atr, t.ts);
      TickStampsClock(su, st, t.killActive, t.decision, t.price, t.atr, t.ts);
      MarkingKeepsSolvent(su, OnPrice(su, st, t.killActive, t.decision, t.price, t.atr, t.ts).0, t.price);
      OneMoreOrdered(ticks);
    }
  }

  lemma {:induction false} FreshSolvent(su: Setup)
    requires SoundSetup(su)
    ensures Solvent(su, Fresh(su.risk.capital))
  {
  }

  lemma {:induction false} MarkingKeepsSolvent(su: Setup, st: EngineState, price: real)
    requires Solvent(su, st)
    ensures Solvent(su, MarkPeak(su, st, price)) && MarkPeak(su, st, price).lastTs == st.lastTs
  {
  }

  lemma {:induction false} OneMoreOrdered(ticks: seq<Tick>)
    requires ticks != [] && Ordered(ticks[..|ticks| - 1])
    requires |ticks| > 1 ==> ticks[|ticks| - 2].ts <= ticks[|ticks| - 1].ts
    ensures Ordered(ticks)
  {
    var before := ticks[..|ticks| - 1];
    forall i, j | 0 <= i < j < |ticks|
      ensures ticks[i].ts <= ticks[j].ts
    {
      assert ticks[i] == before[i];
      if j < |before| {
        assert ticks[j] == before[j];
      } else {
        assert before[i].ts <= before[|before| - 1].ts == ticks[|ticks| - 2].ts;
      }
    }
  }

  /** With a safe fee a session of priced ticks raises if and only if they are out of order. */
  lemma {:induction false} SessionSolvent(su: Setup, ticks: seq<Tick>)
    requires SafeSetup(su) && Priced(ticks)
    ensures RunSession(su, ticks).Some? <==> Ordered(ticks)
    ensures Ordered(ticks) ==> Solvent(su, RunSession(su, ticks).value.state)
  {
    hide OnPrice, Solvent;
    SessionStaysSolvent(su, ticks);
    if ticks != [] && Ordered(ticks) {
      var before, t := ticks[..|ticks| - 1], ticks[|ticks| - 1];
      SessionSolvent(su, before);
      SessionStaysSolvent(su, before);
      var st := RunSession(su, before).value.state;
      TickKeepsSolvent(su, st, t.killActive, t.decision, t.price, t.atr, t.ts);
      SessionStaysSolvent(su, ticks);
    }
  }
}
