/** The equity peak of a session, told without the engine's own marking: the highest equity of the account. */
module PeakEquity {
  import opened Numerics
  import opened Portfolio
  import opened Risk
  import opened PaperTrading
  import S = Reconciliation

  /** The tick got past the protective exits, so that the decision marked the account at its price. */
  predicate Decided(e: LogEvent) {
    !e.filled || e.exitReason == "" || e.exitReason == "llm_sell"
  }

  /** The equities one tick marks the account at: at its price before the decision, at the execution price after a fill,
      and at its price in the end. */
  function Marks(ar: Arith, before: Book, after: Book, price: real, e: LogEvent): seq<real> {
    (if Decided(e) then [Equity(ar, before, price)] else [])
    + (if e.filled && e.execPrice.Some? then [Equity(ar, after, e.execPrice.value)] else [])
    + [Equity(ar, after, price)]
  }

  /** Every equity a session marked its account at, in order. */
  function Marked(su: Setup, ticks: seq<Tick>): seq<real> {
    if ticks == [] || RunSession(su, ticks).None? then []
    else
      var front, last := ticks[..|ticks| - 1], ticks[|ticks| - 1];
      var before, after := RunSession(su, front), RunSession(su, ticks).value;
      if before.None? || after.log == [] then []
      else
        Marked(su, front)
        + Marks(su.ar, before.value.state.book, after.state.book, last.price, after.log[|after.log| - 1])
  }

  /** `peak` is the highest of `from` and the values marked. */
  predicate Highest(peak: real, from: real, marks: seq<real>) {
    && peak >= from && (forall i :: 0 <= i < |marks| ==> marks[i] <= peak)
    && (peak == from || peak in marks)
  }

  lemma {:induction false} HighestOf(peak: real, from: real, mid: real, a: seq<real>, b: seq<real>)
    requires Highest(mid, from, a) && Highest(peak, mid, b)
    ensures Highest(peak, from, a + b)
  {
    assert forall x :: x in a + b <==> x in a || x in b;
  }

  lemma {:induction false} MarkedOnce(su: Setup, st: EngineState, price: real)
    ensures
      Highest(MarkPeak(su, st, price).peakEquity, st.peakEquity, [Equity(su.ar, st.book, price)])
  {
  }

  lemma {:induction false} CloseMarks(su: Setup, st: EngineState, price: real, ts: int, reason: string)
    requires st.position.Some?
    ensures
      var (next, event) := Close(su, st, price, ts, reason);
      && event.fill.Some?
      && Highest(next.peakEquity, st.peakEquity, [Equity(su.ar, next.book, event.fill.value.execPrice)])
  {
  }

  lemma {:induction false} OpenMarks(
    su: Setup, st: EngineState, sized: real, price: real, stop: real, target: Option<real>, ts: int)
    ensures
      var (next, outcome) := Open(su, st, sized, price, stop, target, ts);
      outcome.Done? ==>
        && outcome.event.fill.Some?
        && Highest(next.peakEquity, st.peakEquity, [Equity(su.ar, next.book, outcome.event.fill.value.execPrice)])
  {
    hide BuyFill;
  }

  /** The marks of a decision: at the price, and at the execution price if it fills. */
  function DecisionMarks(ar: Arith, before: Book, after: Book, price: real, e: PaperEvent): seq<real> {
    [Equity(ar, before, price)] + if e.fill.Some? then [Equity(ar, after, e.fill.value.execPrice)] else []
  }

  lemma {:induction false} DecideMarks(
    su: Setup, st: EngineState, killActive: bool, d: Decision, price: real, atr: Option<real>, ts: int)
    ensures
      var (next, outcome) := Decide(su, st, killActive, d, price, atr, ts);
      outcome.Done? ==>
        var e := outcome.event;
        && e.filled == e.fill.Some? && (e.filled ==> e.exitReason in {"", "llm_sell"})
        && (!e.filled ==> next.book == st.book)
        && Highest(next.peakEquity, st.peakEquity, DecisionMarks(su.ar, st.book, next.book, price, e))
  {
    hide Evaluate, Highest, Close, Open, Equity;
    var verdict := Evaluate(su.ar, su.risk, TradeProposal(d.action, d.intensity, price, atr),
                            RiskView(su, st, killActive, price));
    var marked := MarkPeak(su, st, price);
    MarkedOnce(su, st, price);
    var first := [Equity(su.ar, st.book, price)];
    assert first + [] == first;
    if verdict.approved && d.action.Sell? && st.position.Some? {
      CloseMarks(su, marked, price, ts, "llm_sell");
      CloseEvent(su, marked, price, ts, "llm_sell");
      var (next, event) := Close(su, marked, price, ts, "llm_sell");
      HighestOf(next.peakEquity, st.peakEquity, marked.peakEquity, first,
                [Equity(su.ar, next.book, event.fill.value.execPrice)]);
    } else if verdict.approved && d.action.Buy? && verdict.size.Some? {
      var stop := EntryStop(su, verdict, price);
      OpenMarks(su, marked, verdict.size.value.quantity, price, stop, verdict.takeProfit, ts);
      OpenEvent(su, marked, verdict.size.value.quantity, price, stop, verdict.takeProfit, ts);
      var (next, outcome) := Open(su, marked, verdict.size.value.quantity, price, stop, verdict.takeProfit, ts);
      if outcome.Done? {
        HighestOf(next.peakEquity, st.peakEquity, marked.peakEquity, first,
                  [Equity(su.ar, next.book, outcome.event.fill.value.execPrice)]);
      }
    }
  }

  lemma {:induction false} CloseEvent(su: Setup, st: EngineState, price: real, ts: int, reason: string)
    requires st.position.Some?
    ensures
      var (next, event) := Close(su, st, price, ts, reason);
      event.filled && event.fill.Some? && event.exitReason == reason
  {
  }

  lemma {:induction false} OpenEvent(
    su: Setup, st: EngineState, sized: real, price: real, stop: real, target: Option<real>, ts: int)
    ensures
      var (next, outcome) := Open(su, st, sized, price, stop, target, ts);
      outcome.Done? ==> outcome.event.filled && outcome.event.fill.Some? && outcome.event.exitReason == ""
  {
    hide BuyFill;
  }

  lemma {:induction false} StepMarks(su: Setup, st: EngineState, t: Tick)
    requires SessionStep(su, st, t).Some?
    ensures
      var (next, event) := SessionStep(su, st, t).value;
      Highest(next.peakEquity, st.peakEquity, Marks(su.ar, st.book, next.book, t.price, event))
  {
    hide Decide, Close, Highest, Equity;
    var (mid, outcome) := OnPrice(su, st, t.killActive, t.decision, t.price, t.atr, t.ts);
    var (next, event) := SessionStep(su, st, t).value;
    MarkedOnce(su, mid, t.price);
    var seen := Arrive(st, t.price, t.atr, t.ts);
    var last := [Equity(su.ar, mid.book, t.price)];
    var held := if seen.position.None? then seen
                else seen.(position := Some(Raise(su, seen.position.value, t.price, seen.lastAtr)));
    if held.position.Some? && ExitReason(held.position.value, t.price).Some? {
      var reason := ExitReason(held.position.value, t.price).value;
      CloseMarks(su, held, t.price, t.ts, reason);
      CloseEvent(su, held, t.price, t.ts, reason);
      var filled := [Equity(su.ar, mid.book, outcome.event.fill.value.execPrice)];
      HighestOf(next.peakEquity, st.peakEquity, mid.peakEquity, filled, last);
      assert Marks(su.ar, st.book, next.book, t.price, event) == [] + filled + last;
      assert [] + filled == filled;
    } else {
      DecideMarks(su, held, t.killActive, t.decision, t.price, t.atr, t.ts);
      var marks := DecisionMarks(su.ar, st.book, mid.book, t.price, outcome.event);
      HighestOf(next.peakEquity, st.peakEquity, mid.peakEquity, marks, last);
      assert Marks(su.ar, st.book, next.book, t.price, event) == marks + last;
    }
  }

  /** Under any arithmetic, the peak of a session is the highest of its capital and every equity its account was marked
      at; in particular no equity of its log is above it. */
  lemma {:induction false} PeakIsHighestMark(su: Setup, ticks: seq<Tick>)
    ensures RunSession(su, ticks).Some? ==>
      var session := RunSession(su, ticks).value;
      && Highest(session.state.peakEquity, su.risk.capital, Marked(su, ticks))
      && |session.log| == |ticks|
      && forall i :: 0 <= i < |session.log| ==>
           session.log[i].equity in Marked(su, ticks) && session.log[i].equity <= session.state.peakEquity
  {
    hide SessionStep, Marks;
    if ticks != [] && RunSession(su, ticks).Some? {
      var front, last := ticks[..|ticks| - 1], ticks[|ticks| - 1];
      PeakIsHighestMark(su, front);
      S.StepOfSession(su, ticks);
      var before, after := RunSession(su, front).value, RunSession(su, ticks).value;
      StepMarks(su, before.state, last);
      var event := after.log[|after.log| - 1];
      var marks := Marks(su.ar, before.state.book, after.state.book, last.price, event);
      HighestOf(after.state.peakEquity, su.risk.capital, before.state.peakEquity, Marked(su, front), marks);
      LoggedIsMarked(su, before.state, last);
      assert forall i :: 0 <= i < |before.log| ==> after.log[i] == before.log[i];
    }
  }

  lemma {:induction false} LoggedIsMarked(su: Setup, st: EngineState, t: Tick)
    requires SessionStep(su, st, t).Some?
    ensures
      var (next, event) := SessionStep(su, st, t).value;
      event.equity in Marks(su.ar, st.book, next.book, t.price, event)
  {
    hide OnPrice;
  }

  // ---- what the peak is for

  /** A tick at which the account has fallen from the peak by the drawdown limit or more decides nothing: what fills is
      a protective exit, and every decision is rejected for the switch or for the drawdown. */
  lemma {:induction false} DrawdownHalts(su: Setup, st: EngineState, t: Tick)
    requires SessionStep(su, st, t).Some? && su.ar.Exact?
    requires st.peakEquity > 0.0 && su.risk.maxDrawdown >= 0.0
    requires Equity(su.ar, st.book, t.price) <= st.peakEquity * (1.0 - su.risk.maxDrawdown)
    ensures
      var (next, event) := SessionStep(su, st, t).value;
      if event.filled then event.action.Sell? && event.exitReason in {"stop_loss", "trailing_stop", "take_profit"}
      else event.riskReason in {"kill_switch", "max_drawdown"}
  {
    var equity := Equity(su.ar, st.book, t.price);
    DrawdownReached(st.peakEquity, equity, su.risk.maxDrawdown);
    var seen := Arrive(st, t.price, t.atr, t.ts);
    var held := if seen.position.None? then seen
                else seen.(position := Some(Raise(su, seen.position.value, t.price, seen.lastAtr)));
    if held.position.None? || ExitReason(held.position.value, t.price).None? {
      DecideHalted(su, held, t);
    }
  }

  lemma {:induction false} DrawdownReached(peak: real, equity: real, limit: real)
    requires peak > 0.0 && limit >= 0.0 && equity <= peak * (1.0 - limit)
    ensures equity <= peak && (peak - equity) / peak >= limit
  {
    assert peak * limit >= 0.0;
    assert peak * (1.0 - limit) == peak - peak * limit;
    var fallen := (peak - equity) / peak;
    assert fallen * peak == peak - equity;
    Unscale(limit, fallen, peak);
  }

  lemma {:induction false} Unscale(a: real, b: real, d: real)
    requires d > 0.0 && a * d <= b * d
    ensures a <= b
  {
  }

  lemma {:induction false} DecideHalted(su: Setup, st: EngineState, t: Tick)
    requires su.ar.Exact? && st.peakEquity > 0.0 && Equity(su.ar, st.book, t.price) <= st.peakEquity
    requires (st.peakEquity - Equity(su.ar, st.book, t.price)) / st.peakEquity >= su.risk.maxDrawdown
    ensures
      var (next, outcome) := Decide(su, st, t.killActive, t.decision, t.price, t.atr, t.ts);
      outcome.Done? && !outcome.event.filled && outcome.event.riskReason in {"kill_switch", "max_drawdown"}
  {
    hide SizeEntry;
  }
}
