/** Where the paper engine's guarantees end: the fee the cash adjustment can absorb, and more than one position. */
module PaperLimits {
  import opened Numerics
  import opened Portfolio
  import opened Risk
  import opened PaperTrading
  import opened PaperSafety

  /** The sized cost is above the cash, so the buy is cut down to what the cash affords. */
  predicate CutDown(su: Setup, cash: real, sized: real, price: real) {
    var wanted := sized * su.BuyPrice(price);
    wanted + su.Fee(wanted) > cash + CASH_SLACK
  }

  lemma {:induction false} AdjustedCost(cash: real, rate: real)
    ensures
      var affordable := cash / 1.001;
      affordable + affordable * rate > cash + CASH_SLACK <==> cash * (rate - 0.001) > 1.001 * CASH_SLACK
  {
    var affordable := cash / 1.001;
    assert affordable * 1.001 == cash;
    assert (affordable + affordable * rate) * 1.001 == cash + cash * rate by {
      assert (affordable * rate) * 1.001 == (affordable * 1.001) * rate;
    }
    assert cash * (rate - 0.001) == cash * rate - cash * 0.001;
  }

  /** An approved buy raises "cost exceeds cash" if and only if it had to be cut down and the taker fee is above the
      10 bps the cut leaves room for, by more than the rounding slack. */
  lemma {:induction false} OpenRaisesIff(
    su: Setup, st: EngineState, sized: real, price: real, stop: real, target: Option<real>, ts: int)
    requires su.ar.Exact? && su.slippageBps >= 0.0
    requires sized > 0.0 && price > 0.0 && st.book.cash > 0.0
    ensures
      Open(su, st, sized, price, stop, target, ts).1 == BuyExceedsCash
      <==> CutDown(su, st.book.cash, sized, price)
           && st.book.cash * (su.FeeRate() - 0.001) > 1.001 * CASH_SLACK
  {
    var cash, exec := st.book.cash, su.BuyPrice(price);
    var rate := su.SlippageRate();
    assert price * (1.0 + rate) > 0.0 by {
      assert price * rate >= 0.0;
      assert price * (1.0 + rate) == price + price * rate;
    }
    if CutDown(su, cash, sized, price) {
      CutDownFill(su, cash, sized, price, ts);
      AdjustedCost(cash, su.FeeRate());
    }
  }

  lemma {:induction false} CutDownFill(su: Setup, cash: real, sized: real, price: real, ts: int)
    requires su.ar.Exact? && cash > 0.0 && su.BuyPrice(price) > 0.0 && CutDown(su, cash, sized, price)
    ensures
      var f := BuyFill(su, cash, sized, price, ts);
      f.quantity > 0.0 && f.notional == cash / 1.001 && f.fee == cash / 1.001 * su.FeeRate()
  {
    var affordable, exec := cash / 1.001, su.BuyPrice(price);
    var quantity := affordable / exec;
    assert affordable > 0.0;
    assert quantity * exec == affordable;
    assert quantity > 0.0;
  }

  const COSTLY: Setup :=
    Setup(Exact, DEFAULT_RISK.(maxPositionAllocation := 1.0, mediumRiskPct := 1.0), 20.0, 2.0)

  /** With a 20 bps taker fee and the whole account at risk, one ordinary buy makes the engine raise. */
  lemma {:induction false} CostlyBuyRaises()
    ensures RunSession(COSTLY, [Tick(Decision(Action.Buy, Medium), 100.0, Some(1.0), 0, false)]).None?
  {
    var t := Tick(Decision(Action.Buy, Medium), 100.0, Some(1.0), 0, false);
    var st := Arrive(Fresh(1000.0), t.price, t.atr, t.ts);
    var view := RiskView(COSTLY, st, false, 100.0);
    var verdict := Evaluate(Exact, COSTLY.risk, TradeProposal(Action.Buy, Medium, 100.0, Some(1.0)), view);
    assert ComputePositionSize(Exact, Medium, 1.0, 100.0, 0.0, COSTLY.risk).quantity == 10.0;
    assert verdict.approved && verdict.size.value.quantity == 10.0;
    assert COSTLY.FeeRate() == 0.002 && COSTLY.BuyPrice(100.0) == 100.02;
    OpenRaisesIff(COSTLY, MarkPeak(COSTLY, st, 100.0), 10.0, 100.0, EntryStop(COSTLY, verdict, 100.0),
                  verdict.takeProfit, 0);
    assert RunSession(COSTLY, [t][..0]) == Some(Session(Fresh(1000.0), []));
  }

  /** A filled buy leaves the engine and its account in agreement if and only if no position was open. */
  lemma {:induction false} EntryTracksIffFlat(
    su: Setup, st: EngineState, sized: real, price: real, stop: real, target: Option<real>, ts: int)
    requires SoundSetup(su.(risk := su.risk.(maxOpenPositions := 1))) && Tracks(st)
    requires st.book.position >= 0.0
    requires sized > 0.0 && price > 0.0 && st.book.cash > 0.0
    ensures
      var (next, outcome) := Open(su, st, sized, price, stop, target, ts);
      outcome.Done? ==> (Tracks(next) <==> st.position.None?)
  {
    BoughtFill(su.(risk := su.risk.(maxOpenPositions := 1)), st.book.cash, sized, price, ts);
  }

  const PYRAMID: Setup := Setup(Exact, DEFAULT_RISK.(maxOpenPositions := 2), 10.0, 2.0)

  /** With two open positions allowed, two ordinary buys are enough: the engine then manages less than it holds. */
  lemma {:induction false} PyramidLosesTrack()
    ensures
      var t := Tick(Decision(Action.Buy, Medium), 100.0, Some(1.0), 0, false);
      var session := RunSession(PYRAMID, [t, t]);
      session.Some? && !Tracks(session.value.state)
  {
    var t := Tick(Decision(Action.Buy, Medium), 100.0, Some(1.0), 0, false);
    var st0 := Fresh(1000.0);
    FirstPyramidEntry();
    var st1 := SessionStep(PYRAMID, st0, t).value.0;
    SecondPyramidEntry(st1);
    assert [t, t][..1] == [t] && [t][..0] == [];
    assert RunSession(PYRAMID, [t][..0]) == Some(Session(st0, []));
    assert RunSession(PYRAMID, [t, t][..1]).value.state == st1;
  }

  predicate Pyramid1(st: EngineState) {
    && st.position == Some(PaperPosition(0.2, 100.02, 98.0, Some(104.0), 100.02, 0))
    && st.book.position == 0.2 && st.book.cash == 979.975996
    && st.book.avgEntry == Some(100.02) && st.book.entryTs == Some(0)
    && st.peakEquity == 1000.0 && st.realizedToday == 0.0 && st.lastTs == Some(0) && st.day == Some(0)
  }

  lemma {:induction false} FirstPyramidEntry()
    ensures
      var t := Tick(Decision(Action.Buy, Medium), 100.0, Some(1.0), 0, false);
      SessionStep(PYRAMID, Fresh(1000.0), t).Some? && Pyramid1(SessionStep(PYRAMID, Fresh(1000.0), t).value.0)
  {
    var t := Tick(Decision(Action.Buy, Medium), 100.0, Some(1.0), 0, false);
    var st := Arrive(Fresh(1000.0), t.price, t.atr, t.ts);
    var view := RiskView(PYRAMID, st, false, 100.0);
    assert ComputePositionSize(Exact, Medium, 1.0, 100.0, 0.0, PYRAMID.risk).quantity == 0.2;
    var verdict := Evaluate(Exact, PYRAMID.risk, TradeProposal(Action.Buy, Medium, 100.0, Some(1.0)), view);
    assert verdict.approved && verdict.size.value.quantity == 0.2;
    assert verdict.stopLoss == Some(98.0) && verdict.takeProfit == Some(104.0);
    var f := BuyFill(PYRAMID, 1000.0, 0.2, 100.0, 0);
    assert f.execPrice == 100.02 && f.notional == 20.004 && f.fee == 0.020004;
  }

  lemma {:induction false} SecondPyramidEntry(st: EngineState)
    requires Pyramid1(st)
    ensures
      var t := Tick(Decision(Action.Buy, Medium), 100.0, Some(1.0), 0, false);
      SessionStep(PYRAMID, st, t).Some? && !Tracks(SessionStep(PYRAMID, st, t).value.0)
  {
    var seen := Arrive(st, 100.0, Some(1.0), 0);
    var pos := Raise(PYRAMID, seen.position.value, 100.0, 1.0);
    assert pos.stopLoss == 98.0 && ExitReason(pos, 100.0).None?;
    var held := seen.(position := Some(pos));
    var view := RiskView(PYRAMID, held, false, 100.0);
    assert view.equity == 999.975996;
    var proposal := TradeProposal(Action.Buy, Medium, 100.0, Some(1.0));
    var drawdown := CurrentDrawdown(Exact, 1000.0, 999.975996);
    assert drawdown == 0.000024004;
    assert ComputePositionSize(Exact, Medium, 1.0, 100.0, drawdown, PYRAMID.risk).quantity == 0.2;
    var verdict := Evaluate(Exact, PYRAMID.risk, proposal, view);
    assert verdict.approved && verdict.size.value.quantity == 0.2;
    EntryTracksIffFlat(PYRAMID, MarkPeak(PYRAMID, held, 100.0), 0.2, 100.0, EntryStop(PYRAMID, verdict, 100.0),
                       verdict.takeProfit, 0);
    Affordable(PYRAMID.(risk := PYRAMID.risk.(maxOpenPositions := 1)), st.book.cash, 0.2, 100.0, 0);
  }
}
