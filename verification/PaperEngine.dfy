/** The paper trading engine: one price tick goes through ordering, day roll, protective exits, risk verdict, order. */
module PaperTrading {
  import opened Numerics
  import opened Portfolio
  import opened Risk

  /** Everything fixed for a session: arithmetic, risk configuration, taker fee and slippage in basis points. */
  datatype Setup = Setup(ar: Arith, risk: RiskConfig, takerBps: real, slippageBps: real) {
    function FeeRate(): real {
      ar.Div(takerBps, 10_000.0)
    }

    function SlippageRate(): real {
      ar.Div(slippageBps, 10_000.0)
    }

    function Fee(notional: real): real {
      ar.Mul(notional, FeeRate())
    }

    function BuyPrice(price: real): real {
      ar.Mul(price, ar.Add(1.0, SlippageRate()))
    }

    function SellPrice(price: real): real {
      ar.Mul(price, ar.Add(1.0, ar.Mul(-1.0, SlippageRate())))
    }
  }

  datatype PaperPosition = PaperPosition(
    quantity: real,
    entryPrice: real,
    stopLoss: real,
    takeProfit: Option<real>,
    highestPrice: real,
    entryTs: int)

  datatype PaperEvent = PaperEvent(
    filled: bool,
    action: Action,
    exitReason: string,
    riskReason: string,
    fill: Option<Fill>)

  datatype EngineState = EngineState(
    book: Book,
    position: Option<PaperPosition>,
    realizedToday: real,
    day: Option<int>,
    lastTs: Option<int>,
    peakEquity: real,
    lastPrice: Option<real>,
    lastAtr: real,
    ordersRejected: nat,
    dailyLossTriggered: nat,
    dailyLossActiveCycles: nat)

  /** What one call does to its caller: it returns an event, or raises. */
  datatype Outcome = Done(event: PaperEvent) | OutOfOrder | BuyExceedsCash

  datatype Decision = Decision(action: Action, intensity: Intensity)

  function Fresh(capital: real): EngineState {
    EngineState(OpeningBook(capital), None, 0.0, None, None, capital, None, 0.0, 0, 0, 0)
  }

  function Unfilled(action: Action, riskReason: string): PaperEvent {
    PaperEvent(false, action, "", riskReason, None)
  }

  // ---- one tick, stage by stage

  /** The clock, the day roll and the last observation, for a tick that is not out of order. */
  function Arrive(st: EngineState, price: real, atr: Option<real>, ts: int): EngineState {
    var day := UtcDay(ts);
    st.(lastTs := Some(ts),
        day := Some(day),
        realizedToday := if st.day.Some? && st.day.value != day then 0.0 else st.realizedToday,
        lastPrice := Some(price),
        lastAtr := atr.GetOr(0.0))
  }

  /** Raise the equity peak to the book marked at `price`. */
  function MarkPeak(su: Setup, st: EngineState, price: real): EngineState {
    var equity := Equity(su.ar, st.book, price);
    if equity > st.peakEquity then st.(peakEquity := equity) else st
  }

  function SellFill(su: Setup, price: real, quantity: real, ts: int): Fill {
    var exec := su.SellPrice(price);
    var notional := su.ar.Mul(quantity, exec);
    Fill(ts, Action.Sell, price, exec, quantity, notional, su.Fee(notional),
         su.ar.Mul(quantity, Abs(su.ar.Sub(exec, price))))
  }

  /** A buy of the sized quantity, or of what the cash affords when the sized cost is above it. */
  function BuyFill(su: Setup, cash: real, sized: real, price: real, ts: int): Fill {
    var ar := su.ar;
    var exec := su.BuyPrice(price);
    var wanted := ar.Mul(sized, exec);
    var tooMuch := ar.Add(wanted, su.Fee(wanted)) > ar.Add(cash, CASH_SLACK);
    var quantity := if tooMuch then ar.Div(ar.Div(cash, 1.001), exec) else sized;
    var notional := if tooMuch then ar.Mul(quantity, exec) else wanted;
    Fill(ts, Action.Buy, price, exec, quantity, notional, su.Fee(notional),
         ar.Mul(quantity, ar.Sub(exec, price)))
  }

  function Close(su: Setup, st: EngineState, price: real, ts: int, reason: string): (EngineState, PaperEvent)
    requires st.position.Some?
  {
    var fill := SellFill(su, price, st.position.value.quantity, ts);
    var book := ApplySell(su.ar, st.book, fill);
    var gained := su.ar.Sub(book.realizedPnl, st.book.realizedPnl);
    var sold := st.(book := book, realizedToday := su.ar.Add(st.realizedToday, gained));
    (MarkPeak(su, sold, fill.execPrice).(position := None),
     PaperEvent(true, Action.Sell, reason, "", Some(fill)))
  }

  /** The open position after seeing `price`: highest price and trailing stop are raised before any exit is judged. */
  function Raise(su: Setup, pos: PaperPosition, price: real, atr: real): PaperPosition {
    var highest := Max(pos.highestPrice, price);
    pos.(stopLoss := UpdateTrailing(su.ar, pos.stopLoss, highest, atr, su.risk), highestPrice := highest)
  }

  /** Why a position exits at `price`, if it does: the stop comes before the target. */
  function ExitReason(pos: PaperPosition, price: real): Option<string> {
    if price <= pos.stopLoss then Some(if pos.stopLoss > pos.entryPrice then "trailing_stop" else "stop_loss")
    else if pos.takeProfit.Some? && price >= pos.takeProfit.value then Some("take_profit")
    else None
  }

  function CheckExits(su: Setup, st: EngineState, price: real, ts: int): (EngineState, Option<PaperEvent>)
    requires st.position.Some?
  {
    var pos := Raise(su, st.position.value, price, st.lastAtr);
    var held := st.(position := Some(pos));
    match ExitReason(pos, price)
    case Some(reason) =>
      var (closed, event) := Close(su, held, price, ts, reason);
      (closed, Some(event))
    case None => (held, None)
  }

  function Open(su: Setup, st: EngineState, sized: real, price: real, stop: real, target: Option<real>, ts: int)
    : (EngineState, Outcome)
  {
    var fill := BuyFill(su, st.book.cash, sized, price, ts);
    match ApplyBuy(su.ar, st.book, fill)
    case None => (st, BuyExceedsCash)
    case Some(book) =>
      var bought := st.(
        book := book,
        position := Some(PaperPosition(fill.quantity, fill.execPrice, stop, target, fill.execPrice, ts)));
      (MarkPeak(su, bought, fill.execPrice), Done(PaperEvent(true, Action.Buy, "", "", Some(fill))))
  }

  function RiskView(su: Setup, st: EngineState, killActive: bool, price: real): RiskState {
    RiskState(if st.position.Some? then 1 else 0, st.realizedToday, st.peakEquity,
              Equity(su.ar, st.book, price), killActive)
  }

  /** The stop handed to a new position: a verdict stop of exactly zero counts as missing. */
  function EntryStop(su: Setup, verdict: RiskVerdict, price: real): real {
    if verdict.stopLoss.Some? && verdict.stopLoss.value != 0.0 then verdict.stopLoss.value
    else su.ar.Mul(price, su.ar.Sub(1.0, 0.000000001))
  }

  /** The decision, after the protective exits let the tick through. The verdict sees the peak of before this tick. */
  function Decide(su: Setup, st: EngineState, killActive: bool, d: Decision, price: real, atr: Option<real>, ts: int)
    : (EngineState, Outcome)
  {
    var verdict := Evaluate(su.ar, su.risk, TradeProposal(d.action, d.intensity, price, atr),
                            RiskView(su, st, killActive, price));
    var marked := MarkPeak(su, st, price);
    if !verdict.approved then
      (marked.(
         ordersRejected := marked.ordersRejected + if d.action.Hold? then 0 else 1,
         dailyLossTriggered := marked.dailyLossTriggered +
           if d.action.Buy? && verdict.reason == "max_daily_loss" then 1 else 0),
       Done(Unfilled(d.action, verdict.reason)))
    else if d.action.Hold? then
      (marked.(dailyLossActiveCycles := marked.dailyLossActiveCycles +
         if DailyLossExceeded(su.ar, st.realizedToday, su.risk.capital, su.risk) then 1 else 0),
       Done(Unfilled(Action.Hold, "")))
    else if d.action.Sell? && st.position.Some? then
      var (closed, event) := Close(su, marked, price, ts, "llm_sell");
      (closed, Done(event))
    else if d.action.Buy? && verdict.size.Some? then
      Open(su, marked, verdict.size.value.quantity, price, EntryStop(su, verdict, price), verdict.takeProfit, ts)
    else
      (marked, Done(Unfilled(d.action, "")))
  }

  function OnPrice(su: Setup, st: EngineState, killActive: bool, d: Decision, price: real, atr: Option<real>, ts: int)
    : (EngineState, Outcome)
  {
    if st.lastTs.Some? && ts < st.lastTs.value then (st, OutOfOrder)
    else
      var seen := Arrive(st, price, atr, ts);
      if seen.position.None? then Decide(su, seen, killActive, d, price, atr, ts)
      else
        var (held, exit) := CheckExits(su, seen, price, ts);
        match exit
        case Some(event) => (held, Done(event))
        case None => Decide(su, held, killActive, d, price, atr, ts)
  }

  // ---- sessions

  /** One candle as the session runners hand it to the engine. */
  datatype Tick = Tick(decision: Decision, price: real, atr: Option<real>, ts: int, killActive: bool)

  /** One line of the session log. */
  datatype LogEvent = LogEvent(
    ts: int,
    action: Action,
    filled: bool,
    riskReason: string,
    exitReason: string,
    execPrice: Option<real>,
    quantity: Option<real>,
    fee: real,
    slippageCost: real,
    equity: real,
    killActive: bool)

  function Logged(tick: Tick, event: PaperEvent, equity: real): LogEvent {
    var f := event.fill;
    LogEvent(tick.ts, event.action, event.filled, event.riskReason, event.exitReason,
             if f.Some? then Some(f.value.execPrice) else None,
             if f.Some? then Some(f.value.quantity) else None,
             if f.Some? then f.value.fee else 0.0,
             if f.Some? then f.value.slippageCost else 0.0,
             equity, tick.killActive)
  }

  /** Engine call plus the marking at the close that both session runners do; `None` when the engine raises. */
  function SessionStep(su: Setup, st: EngineState, tick: Tick): Option<(EngineState, LogEvent)> {
    var (next, outcome) := OnPrice(su, st, tick.killActive, tick.decision, tick.price, tick.atr, tick.ts);
    if !outcome.Done? then None
    else
      Some((MarkPeak(su, next, tick.price), Logged(tick, outcome.event, Equity(su.ar, next.book, tick.price))))
  }

  datatype Session = Session(state: EngineState, log: seq<LogEvent>)

  /** A whole session on a fresh engine; `None` when some tick raised. */
  function RunSession(su: Setup, ticks: seq<Tick>): Option<Session> {
    if ticks == [] then Some(Session(Fresh(su.risk.capital), []))
    else
      match RunSession(su, ticks[..|ticks| - 1])
      case None => None
      case Some(before) =>
        match SessionStep(su, before.state, ticks[|ticks| - 1])
        case None => None
        case Some((st, event)) => Some(Session(st, before.log + [event]))
  }

  class PaperEngine {
    const setup: Setup
    const portfolio: PortfolioAccount
    var killSwitch: KillSwitch
    var position: Option<PaperPosition>
    var realizedToday: real
    var day: Option<int>
    var lastTs: Option<int>
    var peakEquity: real
    var lastPrice: Option<real>
    var lastAtr: real
    var ordersRejected: nat
    var dailyLossTriggered: nat
    var dailyLossActiveCycles: nat

    ghost predicate Valid() {
      portfolio.ar == setup.ar
    }

    function View(): EngineState
      reads this, portfolio
    {
      EngineState(portfolio.View(), position, realizedToday, day, lastTs, peakEquity, lastPrice, lastAtr,
                  ordersRejected, dailyLossTriggered, dailyLossActiveCycles)
    }

    constructor (setup: Setup)
      ensures Valid() && fresh(portfolio) && fresh(killSwitch)
      ensures this.setup == setup && View() == Fresh(setup.risk.capital) && !killSwitch.state.active
    {
      this.setup := setup;
      portfolio := new PortfolioAccount(setup.ar, setup.risk.capital);
      killSwitch := new KillSwitch(KillSwitchState(false, "", 0));
      position, realizedToday, day, lastTs, peakEquity := None, 0.0, None, None, setup.risk.capital;
      lastPrice, lastAtr := None, 0.0;
      ordersRejected, dailyLossTriggered, dailyLossActiveCycles := 0, 0, 0;
    }

    method AttachKillSwitch(ks: KillSwitch)
      modifies this
      ensures killSwitch == ks && View() == old(View())
    {
      killSwitch := ks;
    }

    method MarkToMarket(price: real) returns (equity: real)
      requires Valid()
      modifies this
      ensures View() == MarkPeak(setup, old(View()), price)
      ensures equity == Equity(setup.ar, View().book, price)
      ensures killSwitch == old(killSwitch)
    {
      equity := Equity(setup.ar, portfolio.View(), price);
      if equity > peakEquity {
        peakEquity := equity;
      }
    }

    /** The clock, the day roll and the last observation. */
    method Observe(price: real, atr: Option<real>, ts: int)
      modifies this
      ensures View() == Arrive(old(View()), price, atr, ts)
      ensures killSwitch == old(killSwitch)
    {
      lastTs := Some(ts);
      var today := UtcDay(ts);
      if day.None? {
        day := Some(today);
      } else if today != day.value {
        day := Some(today);
        realizedToday := 0.0;
      }
      lastPrice := Some(price);
      lastAtr := atr.GetOr(0.0);
    }

    method OnPriceTick(d: Decision, price: real, atr: Option<real>, ts: int) returns (outcome: Outcome)
      requires Valid()
      modifies this, portfolio
      ensures (View(), outcome) == OnPrice(setup, old(View()), killSwitch.state.active, d, price, atr, ts)
      ensures killSwitch == old(killSwitch)
    {
      if lastTs.Some? && ts < lastTs.value {
        return OutOfOrder;
      }
      Observe(price, atr, ts);
      if position.Some? {
        var exit := CheckProtectiveExits(price, ts);
        if exit.Some? {
          return Done(exit.value);
        }
      }
      outcome := DecideTick(d, price, atr, ts);
    }

    method DecideTick(d: Decision, price: real, atr: Option<real>, ts: int) returns (outcome: Outcome)
      requires Valid()
      modifies this, portfolio
      ensures (View(), outcome) == Decide(setup, old(View()), killSwitch.state.active, d, price, atr, ts)
      ensures killSwitch == old(killSwitch)
    {
      hide Evaluate;
      var proposal := TradeProposal(d.action, d.intensity, price, atr);
      var open := if position.Some? then 1 else 0;
      var peakBefore := peakEquity;
      var equity := MarkToMarket(price);
      var state := RiskState(open, realizedToday, peakBefore, equity, killSwitch.state.active);
      var verdict := Evaluate(setup.ar, setup.risk, proposal, state);
      if !verdict.approved {
        if d.action != Action.Hold {
          ordersRejected := ordersRejected + 1;
          if d.action == Action.Buy && verdict.reason == "max_daily_loss" {
            dailyLossTriggered := dailyLossTriggered + 1;
          }
        }
        return Done(Unfilled(d.action, verdict.reason));
      }
      if d.action == Action.Hold {
        if DailyLossExceeded(setup.ar, realizedToday, setup.risk.capital, setup.risk) {
          dailyLossActiveCycles := dailyLossActiveCycles + 1;
        }
        return Done(Unfilled(Action.Hold, ""));
      }
      if d.action == Action.Sell && position.Some? {
        var event := ClosePosition(price, ts, "llm_sell");
        return Done(event);
      }
      if d.action == Action.Buy && verdict.size.Some? {
        outcome := OpenPosition(verdict.size.value.quantity, price, EntryStop(setup, verdict, price),
                                verdict.takeProfit, ts);
        return;
      }
      return Done(Unfilled(d.action, ""));
    }

    method CheckProtectiveExits(price: real, ts: int) returns (exit: Option<PaperEvent>)
      requires Valid() && position.Some?
      modifies this, portfolio
      ensures (View(), exit) == CheckExits(setup, old(View()), price, ts)
      ensures killSwitch == old(killSwitch)
    {
      var pos := position.value;
      var highest := Max(pos.highestPrice, price);
      var stop := UpdateTrailing(setup.ar, pos.stopLoss, highest, lastAtr, setup.risk);
      pos := PaperPosition(pos.quantity, pos.entryPrice, stop, pos.takeProfit, highest, pos.entryTs);
      position := Some(pos);
      if price <= pos.stopLoss {
        var event := ClosePosition(price, ts, if pos.stopLoss > pos.entryPrice then "trailing_stop" else "stop_loss");
        return Some(event);
      }
      if pos.takeProfit.Some? && price >= pos.takeProfit.value {
        var event := ClosePosition(price, ts, "take_profit");
        return Some(event);
      }
      return None;
    }

    method ClosePosition(price: real, ts: int, reason: string) returns (event: PaperEvent)
      requires Valid() && position.Some?
      modifies this, portfolio
      ensures (View(), event) == Close(setup, old(View()), price, ts, reason)
      ensures killSwitch == old(killSwitch)
    {
      var fill := SellFill(setup, price, position.value.quantity, ts);
      var before := portfolio.realizedPnl;
      portfolio.Sell(fill);
      realizedToday := setup.ar.Add(realizedToday, setup.ar.Sub(portfolio.realizedPnl, before));
      var _ := MarkToMarket(fill.execPrice);
      position := None;
      return PaperEvent(true, Action.Sell, reason, "", Some(fill));
    }

    method OpenPosition(sized: real, price: real, stop: real, target: Option<real>, ts: int)
      returns (outcome: Outcome)
      requires Valid()
      modifies this, portfolio
      ensures (View(), outcome) == Open(setup, old(View()), sized, price, stop, target, ts)
      ensures killSwitch == old(killSwitch)
    {
      var fill := BuyFill(setup, portfolio.cash, sized, price, ts);
      var raised := portfolio.Buy(fill);
      if raised {
        return BuyExceedsCash;
      }
      position := Some(PaperPosition(fill.quantity, fill.execPrice, stop, target, fill.execPrice, ts));
      var _ := MarkToMarket(fill.execPrice);
      return Done(PaperEvent(true, Action.Buy, "", "", Some(fill)));
    }
  }

  /** The loop of both session runners, on the real engine: it produces the session of the specification. */
  method RunTicks(su: Setup, engine: PaperEngine, ks: KillSwitch, ticks: seq<Tick>)
    returns (log: seq<LogEvent>, raised: bool)
    requires engine.Valid() && engine.setup == su && engine.View() == Fresh(su.risk.capital)
    requires engine.killSwitch == ks
    requires forall t :: t in ticks ==> t.killActive == ks.state.active
    modifies engine, engine.portfolio
    ensures raised <==> RunSession(su, ticks).None?
    ensures !raised ==> RunSession(su, ticks) == Some(Session(engine.View(), log))
  {
    log := [];
    for i := 0 to |ticks|
      invariant engine.killSwitch == ks && ks.state == old(ks.state)
      invariant RunSession(su, ticks[..i]) == Some(Session(engine.View(), log))
    {
      var tick := ticks[i];
      assert ticks[..i + 1][..i] == ticks[..i];
      var outcome := engine.OnPriceTick(tick.decision, tick.price, tick.atr, tick.ts);
      if !outcome.Done? {
        assert RunSession(su, ticks[..i + 1]).None?;
        RaisedStays(su, ticks, i + 1);
        return log, true;
      }
      var equity := engine.MarkToMarket(tick.price);
      log := log + [Logged(tick, outcome.event, equity)];
    }
    assert ticks[..|ticks|] == ticks;
    return log, false;
  }

  lemma {:induction false} RaisedStays(su: Setup, ticks: seq<Tick>, n: nat)
    requires n <= |ticks| && RunSession(su, ticks[..n]).None?
    ensures RunSession(su, ticks).None?
  {
    if n < |ticks| {
      assert ticks[..|ticks| - 1][..n] == ticks[..n];
      RaisedStays(su, ticks[..|ticks| - 1], n);
    } else {
      assert ticks[..n] == ticks;
    }
  }
}
