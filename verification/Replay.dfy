/** The two-clock trade replay: confirmed candles enqueue decisions, every trade drains, fills and judges exits. */
module Replay {
  import opened Numerics
  import opened Risk
  import Portfolio
  import Indicators

  datatype CandleRow = CandleRow(
    openTime: int, closeTime: int, open: real, high: real, low: real, close: real, volume: real, tradeCount: nat)

  datatype ReplayTrade = ReplayTrade(ts: int, price: real, quantity: real)

  type Period = n: nat | n >= 1 witness 1

  datatype Scenario = Scenario(
    risk: RiskConfig,
    quantity: real,
    feeRate: real,
    slippageBps: real,
    atrPeriod: Period,
    dynamic: bool,
    intensity: Intensity)
  {
    function Slip(): real {
      slippageBps / 10_000.0
    }
  }

  datatype ContextSnapshot = ContextSnapshot(decisionTs: int, h1: Option<CandleRow>, h4: Option<CandleRow>)

  /** Everything a decision provider is shown for one confirmed candle. */
  datatype DecisionInput = DecisionInput(
    candleIndex: nat, decisionTs: int, referencePrice: real, atr: Option<real>, context: ContextSnapshot,
    row: CandleRow)

  datatype Decision = Decision(action: string, signalTs: int, referencePrice: real, candleIndex: nat, atr: Option<real>)

  /** A provider's answer; `Refuse` is its exception. */
  datatype Reply = Abstain | Decide(decision: Decision) | Refuse

  /** A deterministic provider, however stateful: its answer is a function of all it has been shown, in order. */
  type Provider = seq<DecisionInput> -> Reply

  datatype Env = Env(
    candles: seq<CandleRow>,
    h1: seq<CandleRow>,
    h4: seq<CandleRow>,
    trades: seq<ReplayTrade>,
    scenario: Scenario,
    provider: Provider)

  datatype Fault =
    | ProviderRefused
    | UnknownAction
    | PendingWithoutPosition
    | PendingWithoutIndex
    | ApprovedWithoutStops
    | OpenWithoutTrades

  datatype Outcome<+T> = Ok(value: T) | Raised(fault: Fault) {
    predicate IsFailure() {
      Raised?
    }

    function PropagateFailure<U>(): Outcome<U>
      requires Raised?
    {
      Raised(fault)
    }

    function Extract(): T
      requires Ok?
    {
      value
    }
  }

  datatype Position = Position(
    quantity: real,
    signalTs: int,
    fillTs: int,
    referencePrice: real,
    executionPrice: real,
    tradePrice: real,
    candleIndex: nat,
    fillIndex: nat,
    atr: real,
    initialStop: real,
    initialTarget: real,
    trailing: real,
    highest: real,
    lowest: real,
    currentAtr: real,
    trailingUpdates: nat)

  datatype PendingExit = PendingExit(
    reason: string, triggerTs: int, triggerIndex: Option<nat>, triggerPrice: real, referencePrice: real)

  datatype Record = Record(
    entry: Position,
    mfe: real,
    mae: real,
    exitTriggerTs: int,
    exitFillTs: int,
    exitTriggerIndex: Option<nat>,
    exitFillIndex: nat,
    exitReason: string,
    exitReferencePrice: real,
    exitExecutionPrice: real,
    exitTradePrice: real,
    fees: real,
    slippage: real,
    grossPnl: real,
    netPnl: real,
    holdingMs: int)

  datatype Stats = Stats(total: nat, filled: nat, dropped: nat, unfilled: nat, rejected: nat, closedTrades: nat)

  /** `asked` lists every input handed to the provider so far: what its memory can depend on. */
  datatype State = State(
    candleI: nat,
    asked: seq<DecisionInput>,
    queue: seq<Decision>,
    position: Option<Position>,
    pending: Option<PendingExit>,
    records: seq<Record>,
    stats: Stats,
    rejectedReasons: map<string, nat>,
    realizedTotal: real,
    realizedToday: real,
    day: Option<int>,
    peakEquity: real)

  const SWEEP_CUTOFF: int := 0x4000_0000_0000_0000

  function Start(env: Env): State {
    State(0, [], [], None, None, [], Stats(0, 0, 0, 0, 0, 0), map[], 0.0, 0.0, None, env.scenario.risk.capital)
  }

  // ---- the strategy clock

  function DomainCandle(row: CandleRow): Indicators.Candle {
    Indicators.Candle(row.openTime, row.open, row.high, row.low, row.close, row.volume, 0.0)
  }

  function DomainCandles(rows: seq<CandleRow>): (r: seq<Indicators.Candle>)
    ensures |r| == |rows| && forall i :: 0 <= i < |r| ==> r[i] == DomainCandle(rows[i])
  {
    seq(|rows|, i requires 0 <= i < |rows| => DomainCandle(rows[i]))
  }

  /** The first position in `rows[lo..hi]` whose close time is after `ts`, by halving. */
  function Bisect(rows: seq<CandleRow>, ts: int, lo: nat, hi: nat): (r: nat)
    requires lo <= hi <= |rows|
    ensures lo <= r <= hi
    decreases hi - lo
  {
    if lo == hi then lo
    else
      var mid := (lo + hi) / 2;
      if ts < rows[mid].closeTime then Bisect(rows, ts, lo, mid) else Bisect(rows, ts, mid + 1, hi)
  }

  function ContextAt(rows: seq<CandleRow>, ts: int): Option<CandleRow> {
    var position := Bisect(rows, ts, 0, |rows|);
    if position == 0 then None else Some(rows[position - 1])
  }

  function AtrOf(env: Env, i: nat): Option<real>
    requires i < |env.candles|
  {
    Indicators.AtrAt(Exact, DomainCandles(env.candles), env.scenario.atrPeriod, i)
  }

  function InputAt(env: Env, i: nat): DecisionInput
    requires i < |env.candles|
  {
    var c := env.candles[i];
    DecisionInput(i, c.closeTime, c.close, AtrOf(env, i),
                  ContextSnapshot(c.closeTime, ContextAt(env.h1, c.closeTime), ContextAt(env.h4, c.closeTime)), c)
  }

  /** The inputs of the first `n` candles, each once and in order. */
  function Shown(env: Env, n: nat): (r: seq<DecisionInput>)
    requires n <= |env.candles|
    ensures |r| == n
  {
    if n == 0 then [] else Shown(env, n - 1) + [InputAt(env, n - 1)]
  }

  function Confirm(env: Env, st: State): Outcome<State>
    requires st.candleI < |env.candles|
  {
    var asked := st.asked + [InputAt(env, st.candleI)];
    var reply := env.provider(asked);
    if reply.Refuse? then Raised(ProviderRefused)
    else
      var answered := if reply.Abstain? then st.(asked := asked) else
        st.(asked := asked, queue := st.queue + [reply.decision], stats := st.stats.(total := st.stats.total + 1));
      var atr := AtrOf(env, st.candleI);
      var tracked := if env.scenario.dynamic && st.position.Some? && atr.Some? then
        answered.(position := Some(st.position.value.(currentAtr := atr.value))) else answered;
      Ok(tracked.(candleI := st.candleI + 1))
  }

  /** Confirm every candle that has closed by `cutoff`. */
  function Advance(env: Env, st: State, cutoff: int): Outcome<State>
    decreases |env.candles| - st.candleI
  {
    if st.candleI >= |env.candles| || env.candles[st.candleI].closeTime > cutoff then Ok(st)
    else
      var next :- Confirm(env, st);
      Advance(env, next, cutoff)
  }

  // ---- closing

  function RollDay(st: State, ts: int): State {
    var day := UtcDay(ts);
    st.(day := Some(day), realizedToday := if st.day.Some? && st.day.value != day then 0.0 else st.realizedToday)
  }

  function CloseRecord(
    sc: Scenario, pos: Position, pending: PendingExit, fillTs: int, fillIndex: nat, price: real): Record
  {
    var slip := sc.Slip();
    var exitExecution := price * (1.0 - slip);
    var gross := (price - pos.tradePrice) * pos.quantity;
    var slippage := slip * (pos.tradePrice + price) * pos.quantity;
    var fees := sc.feeRate * (pos.executionPrice + exitExecution) * pos.quantity;
    Record(pos, Max(pos.highest - pos.executionPrice, 0.0), Max(pos.executionPrice - pos.lowest, 0.0),
           pending.triggerTs, fillTs, pending.triggerIndex, fillIndex, pending.reason, pending.referencePrice,
           exitExecution, price, fees, slippage, gross, gross - slippage - fees, fillTs - pos.fillTs)
  }

  function Finish(
    sc: Scenario, st: State, pos: Position, pending: PendingExit, fillTs: int, fillIndex: nat, price: real): State
  {
    var record := CloseRecord(sc, pos, pending, fillTs, fillIndex, price);
    var closed := st.(
      records := st.records + [record],
      stats := st.stats.(closedTrades := st.stats.closedTrades + 1),
      position := None, pending := None);
    if !sc.dynamic then closed
    else
      var rolled := RollDay(closed, fillTs);
      var total := rolled.realizedTotal + record.netPnl;
      rolled.(realizedTotal := total, realizedToday := rolled.realizedToday + record.netPnl,
              peakEquity := Max(rolled.peakEquity, sc.risk.capital + total))
  }

  function FillPendingExit(sc: Scenario, st: State, trade: ReplayTrade, index: nat): Outcome<State> {
    if st.pending.None? then Ok(st)
    else if st.position.None? then Raised(PendingWithoutPosition)
    else Ok(Finish(sc, st, st.position.value, st.pending.value, trade.ts, index, trade.price))
  }

  // ---- decisions

  function EvaluateRisk(sc: Scenario, rolled: State, d: Decision): RiskVerdict {
    Evaluate(Exact, sc.risk, TradeProposal(Portfolio.Buy, sc.intensity, d.referencePrice, d.atr),
             RiskState(0, rolled.realizedToday, rolled.peakEquity, sc.risk.capital + rolled.realizedTotal, false))
  }

  function Opened(
    sc: Scenario, d: Decision, atr: real, trade: ReplayTrade, index: nat, quantity: real, stop: real, target: real)
    : Position
  {
    var entry := trade.price * (1.0 + sc.Slip());
    Position(quantity, d.signalTs, trade.ts, d.referencePrice, entry, trade.price, d.candleIndex, index, atr,
             stop, target, stop, entry, entry, atr, 0)
  }

  /** Opening with the fixed quantity, stops measured from the execution price. */
  function OpenFixed(sc: Scenario, d: Decision, atr: real, trade: ReplayTrade, index: nat): Position {
    var entry := trade.price * (1.0 + sc.Slip());
    var stop := InitialStop(Exact, entry, atr, sc.risk);
    Opened(sc, d, atr, trade, index, sc.quantity, stop, TakeProfit(Exact, entry, stop, sc.risk))
  }

  function Filled(st: State, pos: Position): State {
    st.(position := Some(pos), stats := st.stats.(filled := st.stats.filled + 1))
  }

  function DropDecision(st: State): State {
    st.(stats := st.stats.(dropped := st.stats.dropped + 1))
  }

  function RejectDecision(st: State, reason: string): State {
    var before := if reason in st.rejectedReasons then st.rejectedReasons[reason] else 0;
    st.(stats := st.stats.(rejected := st.stats.rejected + 1),
        rejectedReasons := st.rejectedReasons[reason := before + 1])
  }

  function Seen(pos: Position, price: real): Position {
    pos.(highest := Max(pos.highest, price), lowest := Min(pos.lowest, price))
  }

  function TakeBuy(sc: Scenario, st: State, d: Decision, trade: ReplayTrade, index: nat): Outcome<State> {
    if st.position.Some? || d.atr.None? then Ok(DropDecision(st))
    else if !sc.dynamic then Ok(Filled(st, OpenFixed(sc, d, d.atr.value, trade, index)))
    else
      var rolled := RollDay(st, trade.ts);
      var v := EvaluateRisk(sc, rolled, d);
      if !v.approved then Ok(RejectDecision(rolled, v.reason))
      else if v.size.None? || v.stopLoss.None? || v.takeProfit.None? then Raised(ApprovedWithoutStops)
      else
        Ok(Filled(rolled, Opened(sc, d, d.atr.value, trade, index, v.size.value.quantity, v.stopLoss.value,
                                 v.takeProfit.value)))
  }

  function TakeSell(sc: Scenario, st: State, d: Decision, trade: ReplayTrade, index: nat): State {
    if st.position.None? then DropDecision(st)
    else
      var pending := PendingExit("strategy_exit", d.signalTs, None, trade.price, d.referencePrice);
      var closed := Finish(sc, st, Seen(st.position.value, trade.price), pending, trade.ts, index, trade.price);
      closed.(stats := closed.stats.(filled := closed.stats.filled + 1))
  }

  function Take(sc: Scenario, st: State, d: Decision, trade: ReplayTrade, index: nat): Outcome<State> {
    if d.action == "buy" then TakeBuy(sc, st, d, trade, index)
    else if d.action == "sell" then Ok(TakeSell(sc, st, d, trade, index))
    else Raised(UnknownAction)
  }

  lemma {:induction false} TakeKeepsQueue(sc: Scenario, st: State, d: Decision, trade: ReplayTrade, index: nat)
    ensures Take(sc, st, d, trade, index).Ok? ==> Take(sc, st, d, trade, index).value.queue == st.queue
  {
  }

  /** First in, first out: every queued decision is taken at this trade. */
  function Drain(sc: Scenario, st: State, trade: ReplayTrade, index: nat): Outcome<State>
    decreases |st.queue|
  {
    if st.queue == [] then Ok(st)
    else
      var popped := st.(queue := st.queue[1..]);
      TakeKeepsQueue(sc, popped, st.queue[0], trade, index);
      var next :- Take(sc, popped, st.queue[0], trade, index);
      Drain(sc, next, trade, index)
  }

  // ---- exits on the execution clock

  function Protective(pos: Position): real {
    Max(pos.initialStop, pos.trailing)
  }

  /** Why `price` makes the position exit, with the level in force before this trade raises it. */
  function ExitAt(pos: Position, price: real): Option<string> {
    if price <= Protective(pos) then
      Some(if Protective(pos) > pos.executionPrice then "trailing_stop" else "stop_loss")
    else if price >= pos.initialTarget then Some("take_profit")
    else None
  }

  function Raise(sc: Scenario, pos: Position): Position {
    var atr := if sc.dynamic then pos.currentAtr else pos.atr;
    var stop := UpdateTrailing(Exact, pos.trailing, pos.highest, atr, sc.risk);
    if stop > pos.trailing then pos.(trailing := stop, trailingUpdates := pos.trailingUpdates + 1) else pos
  }

  function RiskEval(sc: Scenario, st: State, trade: ReplayTrade, index: nat): State {
    if st.position.None? || trade.ts <= st.position.value.fillTs then st
    else
      var pos := Seen(st.position.value, trade.price);
      match ExitAt(pos, trade.price)
      case Some(reason) =>
        var reference := if reason == "take_profit" then pos.initialTarget else Protective(pos);
        st.(position := Some(pos),
            pending := Some(PendingExit(reason, trade.ts, Some(index), trade.price, reference)))
      case None => st.(position := Some(Raise(sc, pos)))
  }

  // ---- runs

  function Step(env: Env, st: State, index: nat): Outcome<State>
    requires index < |env.trades|
  {
    var trade := env.trades[index];
    var confirmed :- Advance(env, st, trade.ts);
    var filled :- FillPendingExit(env.scenario, confirmed, trade, index);
    var drained :- Drain(env.scenario, filled, trade, index);
    Ok(RiskEval(env.scenario, drained, trade, index))
  }

  /** The engine after the first `n` trades. */
  function After(env: Env, n: nat): Outcome<State>
    requires n <= |env.trades|
  {
    if n == 0 then Ok(Start(env))
    else
      var st :- After(env, n - 1);
      Step(env, st, n - 1)
  }

  /** The end of the data: sweep the candles left, count what stays queued, close what stays open. */
  function FillPendingEdge(env: Env, st: State): Outcome<State> {
    if st.pending.None? then Ok(st)
    else if st.position.None? then Raised(PendingWithoutPosition)
    else if st.pending.value.triggerIndex.None? then Raised(PendingWithoutIndex)
    else
      var p := st.pending.value;
      Ok(Finish(env.scenario, st, st.position.value, p, p.triggerTs, p.triggerIndex.value, p.triggerPrice))
  }

  function CloseAtEnd(env: Env, st: State): Outcome<State> {
    if st.position.None? then Ok(st)
    else if env.trades == [] then Raised(OpenWithoutTrades)
    else
      var last, index := env.trades[|env.trades| - 1], |env.trades| - 1;
      var pending := PendingExit("end_of_dataset", last.ts, Some(index), last.price, last.price);
      Ok(Finish(env.scenario, st, st.position.value, pending, last.ts, index, last.price))
  }

  function LeaveUnfilled(st: State): State {
    st.(queue := [], stats := st.stats.(unfilled := st.stats.unfilled + |st.queue|))
  }

  function Settle(env: Env, st: State): Outcome<State> {
    var edged :- FillPendingEdge(env, st);
    CloseAtEnd(env, edged)
  }

  function Sweep(env: Env, st: State): Outcome<State> {
    var swept :- Advance(env, st, SWEEP_CUTOFF);
    Settle(env, LeaveUnfilled(swept))
  }

  function Run(env: Env): Outcome<State> {
    var st :- After(env, |env.trades|);
    Sweep(env, st)
  }

  // ---- the engine object

  class ReplayEngine {
    const env: Env
    var candleI: nat
    var asked: seq<DecisionInput>
    var queue: seq<Decision>
    var position: Option<Position>
    var pending: Option<PendingExit>
    var records: seq<Record>
    var stats: Stats
    var rejectedReasons: map<string, nat>
    var realizedTotal: real
    var realizedToday: real
    var day: Option<int>
    var peakEquity: real

    function View(): State
      reads this
    {
      State(candleI, asked, queue, position, pending, records, stats, rejectedReasons, realizedTotal, realizedToday,
            day, peakEquity)
    }

    /** What a call that may raise reports, against its specification. */
    ghost predicate Reports(spec: Outcome<State>, fault: Option<Fault>)
      reads this
    {
      match spec
      case Ok(st) => fault.None? && View() == st
      case Raised(f) => fault == Some(f)
    }

    constructor (env: Env)
      ensures this.env == env && View() == Start(env)
    {
      this.env := env;
      candleI, asked, queue, position, pending, records := 0, [], [], None, None, [];
      stats, rejectedReasons := Stats(0, 0, 0, 0, 0, 0), map[];
      realizedTotal, realizedToday, day, peakEquity := 0.0, 0.0, None, env.scenario.risk.capital;
    }

    /** The next candle is confirmed: the provider is asked and an open position's ATR follows. */
    method ConfirmNext() returns (fault: Option<Fault>)
      requires candleI < |env.candles|
      modifies this
      ensures Reports(Confirm(env, old(View())), fault)
    {
      var index := candleI;
      asked := asked + [InputAt(env, index)];
      var reply := env.provider(asked);
      if reply.Refuse? {
        return Some(ProviderRefused);
      }
      if reply.Decide? {
        queue := queue + [reply.decision];
        stats := stats.(total := stats.total + 1);
      }
      if env.scenario.dynamic && position.Some? {
        var atr := AtrOf(env, index);
        if atr.Some? {
          position := Some(position.value.(currentAtr := atr.value));
        }
      }
      candleI := candleI + 1;
      return None;
    }

    method AdvanceTo(cutoff: int) returns (fault: Option<Fault>)
      modifies this
      ensures Reports(Advance(env, old(View()), cutoff), fault)
    {
      while candleI < |env.candles|
        invariant Advance(env, old(View()), cutoff) == Advance(env, View(), cutoff)
        decreases |env.candles| - candleI
      {
        var candle := env.candles[candleI];
        if candle.closeTime > cutoff {
          break;
        }
        AdvanceOnce(env, View(), cutoff);
        fault := ConfirmNext();
        if fault.Some? {
          return;
        }
      }
      return None;
    }

    method Roll(ts: int)
      modifies this
      ensures View() == RollDay(old(View()), ts)
    {
      var today := UtcDay(ts);
      if day.None? {
        day := Some(today);
      } else if today != day.value {
        day := Some(today);
        realizedToday := 0.0;
      }
    }

    method FinishPosition(pos: Position, exit: PendingExit, fillTs: int, fillIndex: nat, price: real)
      modifies this
      ensures View() == Finish(env.scenario, old(View()), pos, exit, fillTs, fillIndex, price)
    {
      var record := CloseRecord(env.scenario, pos, exit, fillTs, fillIndex, price);
      records := records + [record];
      stats := stats.(closedTrades := stats.closedTrades + 1);
      if env.scenario.dynamic {
        Roll(fillTs);
        realizedTotal := realizedTotal + record.netPnl;
        realizedToday := realizedToday + record.netPnl;
        var equity := env.scenario.risk.capital + realizedTotal;
        if equity > peakEquity {
          peakEquity := equity;
        }
      }
      position := None;
      pending := None;
    }

    method FillPending(trade: ReplayTrade, index: nat) returns (fault: Option<Fault>)
      modifies this
      ensures Reports(FillPendingExit(env.scenario, old(View()), trade, index), fault)
    {
      if pending.None? {
        return None;
      }
      if position.None? {
        return Some(PendingWithoutPosition);
      }
      FinishPosition(position.value, pending.value, trade.ts, index, trade.price);
      return None;
    }

    method TakeDecision(d: Decision, trade: ReplayTrade, index: nat) returns (fault: Option<Fault>)
      modifies this
      ensures Reports(Take(env.scenario, old(View()), d, trade, index), fault)
    {
      if d.action == "buy" {
        if position.Some? || d.atr.None? {
          stats := stats.(dropped := stats.dropped + 1);
          return None;
        }
        if !env.scenario.dynamic {
          position := Some(OpenFixed(env.scenario, d, d.atr.value, trade, index));
        } else {
          Roll(trade.ts);
          var verdict := EvaluateRisk(env.scenario, View(), d);
          if !verdict.approved {
            stats := stats.(rejected := stats.rejected + 1);
            var before := if verdict.reason in rejectedReasons then rejectedReasons[verdict.reason] else 0;
            rejectedReasons := rejectedReasons[verdict.reason := before + 1];
            return None;
          }
          if verdict.size.None? || verdict.stopLoss.None? || verdict.takeProfit.None? {
            return Some(ApprovedWithoutStops);
          }
          position := Some(Opened(env.scenario, d, d.atr.value, trade, index, verdict.size.value.quantity,
                                  verdict.stopLoss.value, verdict.takeProfit.value));
        }
        stats := stats.(filled := stats.filled + 1);
      } else if d.action == "sell" {
        if position.None? {
          stats := stats.(dropped := stats.dropped + 1);
          return None;
        }
        var exit := PendingExit("strategy_exit", d.signalTs, None, trade.price, d.referencePrice);
        FinishPosition(Seen(position.value, trade.price), exit, trade.ts, index, trade.price);
        stats := stats.(filled := stats.filled + 1);
      } else {
        return Some(UnknownAction);
      }
      return None;
    }

    method DrainDecisions(trade: ReplayTrade, index: nat) returns (fault: Option<Fault>)
      modifies this
      ensures Reports(Drain(env.scenario, old(View()), trade, index), fault)
    {
      while queue != []
        invariant Drain(env.scenario, old(View()), trade, index) == Drain(env.scenario, View(), trade, index)
        decreases |queue|
      {
        var decision := queue[0];
        ghost var before := View();
        queue := queue[1..];
        TakeKeepsQueue(env.scenario, View(), decision, trade, index);
        fault := TakeDecision(decision, trade, index);
        if fault.Some? {
          return;
        }
      }
      return None;
    }

    method EvaluateExits(trade: ReplayTrade, index: nat)
      modifies this
      ensures View() == RiskEval(env.scenario, old(View()), trade, index)
    {
      if position.None? || trade.ts <= position.value.fillTs {
        return;
      }
      var pos := Seen(position.value, trade.price);
      var protective := Max(pos.initialStop, pos.trailing);
      if trade.price <= protective {
        var reason := if protective > pos.executionPrice then "trailing_stop" else "stop_loss";
        pending := Some(PendingExit(reason, trade.ts, Some(index), trade.price, protective));
      } else if trade.price >= pos.initialTarget {
        pending := Some(PendingExit("take_profit", trade.ts, Some(index), trade.price, pos.initialTarget));
      } else {
        var atr := if env.scenario.dynamic then pos.currentAtr else pos.atr;
        var stop := UpdateTrailing(Exact, pos.trailing, pos.highest, atr, env.scenario.risk);
        if stop > pos.trailing {
          pos := pos.(trailing := stop, trailingUpdates := pos.trailingUpdates + 1);
        }
      }
      position := Some(pos);
    }

    method OnTrade(index: nat) returns (fault: Option<Fault>)
      requires index < |env.trades|
      modifies this
      ensures Reports(Step(env, old(View()), index), fault)
    {
      var trade := env.trades[index];
      fault := AdvanceTo(trade.ts);
      if fault.Some? {
        return;
      }
      fault := FillPending(trade, index);
      if fault.Some? {
        return;
      }
      fault := DrainDecisions(trade, index);
      if fault.Some? {
        return;
      }
      EvaluateExits(trade, index);
    }

    method CloseOut() returns (fault: Option<Fault>)
      modifies this
      ensures Reports(Sweep(env, old(View())), fault)
    {
      fault := AdvanceTo(SWEEP_CUTOFF);
      if fault.Some? {
        return;
      }
      ghost var swept := View();
      while queue != []
        invariant |queue| <= |swept.queue|
        invariant View() == swept.(queue := queue, stats := swept.stats.(
          unfilled := swept.stats.unfilled + (|swept.queue| - |queue|)))
        decreases |queue|
      {
        queue := queue[1..];
        stats := stats.(unfilled := stats.unfilled + 1);
      }
      if pending.Some? {
        if position.None? {
          return Some(PendingWithoutPosition);
        }
        var p := pending.value;
        if p.triggerIndex.None? {
          return Some(PendingWithoutIndex);
        }
        FinishPosition(position.value, p, p.triggerTs, p.triggerIndex.value, p.triggerPrice);
      }
      if position.Some? {
        if env.trades == [] {
          return Some(OpenWithoutTrades);
        }
        var index := |env.trades| - 1;
        var last := env.trades[index];
        FinishPosition(position.value,
                       PendingExit("end_of_dataset", last.ts, Some(index), last.price, last.price),
                       last.ts, index, last.price);
      }
      return None;
    }

    method RunTrades() returns (fault: Option<Fault>)
      requires View() == Start(env)
      modifies this
      ensures Reports(After(env, |env.trades|), fault)
    {
      hide Step;
      for index := 0 to |env.trades|
        invariant After(env, index) == Ok(View())
      {
        AfterOne(env, View(), index);
        fault := OnTrade(index);
        if fault.Some? {
          RaisedStays(env, index + 1, |env.trades|);
          return;
        }
      }
      return None;
    }

    method RunAll() returns (fault: Option<Fault>)
      requires View() == Start(env)
      modifies this
      ensures Reports(Run(env), fault)
    {
      fault := RunTrades();
      if fault.None? {
        fault := CloseOut();
      }
    }
  }

  lemma {:induction false} AdvanceOnce(env: Env, st: State, cutoff: int)
    requires st.candleI < |env.candles| && env.candles[st.candleI].closeTime <= cutoff
    ensures Confirm(env, st).Raised? ==> Advance(env, st, cutoff) == Raised(Confirm(env, st).fault)
    ensures Confirm(env, st).Ok? ==>
      && Confirm(env, st).value.candleI == st.candleI + 1
      && Advance(env, st, cutoff) == Advance(env, Confirm(env, st).value, cutoff)
  {
  }

  lemma {:induction false} AfterOne(env: Env, st: State, n: nat)
    requires n < |env.trades| && After(env, n) == Ok(st)
    ensures After(env, n + 1) == Step(env, st, n)
  {
  }

  lemma {:induction false} AfterRaised(env: Env, n: nat)
    requires n < |env.trades| && After(env, n).Raised?
    ensures After(env, n + 1) == After(env, n)
  {
  }

  lemma {:induction false} RaisedStays(env: Env, n: nat, m: nat)
    requires n <= m <= |env.trades| && After(env, n).Raised?
    ensures After(env, m) == After(env, n)
    decreases m - n
  {
    if n < m {
      AfterRaised(env, n);
      RaisedStays(env, n + 1, m);
    }
  }
}
