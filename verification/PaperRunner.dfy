/** The paper runner: confirmed candles in, persisted events out, and recovery by replaying what was persisted. */
module Runner {
  import opened Numerics
  import opened Portfolio
  import opened PaperTrading
  import opened Indicators
  import S = Strategy
  import Risk

  /** Everything fixed for a runner. The regime classifier is any pure function of the last candles. */
  datatype Runtime = Runtime(
    setup: Setup,
    strategy: S.StrategyConfig,
    symbols: set<string>,
    classify: seq<Candle> -> Option<string>)
  {
    predicate Valid() {
      strategy.Valid()
    }
  }

  const ATR_PERIOD: nat := 14
  const WINDOW: nat := 100
  const CONFIRMATION_CANDLES: nat := 3

  // ---- regime confirmation

  datatype RegimeEvidence = RegimeEvidence(firstSeenAt: int, confirmedAt: int, lastSeenAt: int)

  datatype RegimeTracker = RegimeTracker(
    pendingName: Option<string>,
    pendingSince: Option<int>,
    pendingCount: nat,
    evidence: map<string, RegimeEvidence>,
    rejected: nat)

  const REGIME_START: RegimeTracker := RegimeTracker(None, None, 0, map[], 0)

  function ResetPending(t: RegimeTracker): RegimeTracker {
    var rejected := t.pendingCount < CONFIRMATION_CANDLES && t.pendingName.Some?;
    RegimeTracker(None, None, 0, t.evidence, t.rejected + if rejected then 1 else 0)
  }

  function ObserveRegime(t: RegimeTracker, regime: Option<string>, ts: int): RegimeTracker {
    if regime.None? then ResetPending(t)
    else
      var name := regime.value;
      var seen :=
        if t.pendingName != Some(name) then
          ResetPending(t).(pendingName := Some(name), pendingSince := Some(ts), pendingCount := 1)
        else t.(pendingCount := t.pendingCount + 1);
      if seen.pendingCount < CONFIRMATION_CANDLES then seen
      else
        var since := if seen.pendingSince.Some? && seen.pendingSince.value != 0 then seen.pendingSince.value else ts;
        var e :=
          if name in seen.evidence then seen.evidence[name].(lastSeenAt := ts) else RegimeEvidence(since, ts, ts);
        seen.(evidence := seen.evidence[name := e])
  }

  // ---- one candle

  datatype DecisionContext = DecisionContext(
    signalReason: string, atr: Option<real>, emaFast: Option<real>, emaSlow: Option<real>, rsi: Option<real>,
    regime: Option<string>)

  datatype RunnerEvent = RunnerEvent(symbol: string, timeframe: string, body: LogEvent, context: DecisionContext)

  datatype State = State(
    strategy: S.StrategyState,
    atr: map<string, AtrState>,
    windows: map<string, seq<Candle>>,
    regimes: map<string, RegimeTracker>,
    lastCandle: map<(string, string), Candle>,
    engine: EngineState)

  /** A candle as it is delivered, with the kill switch as it stands then. */
  datatype Delivery = Delivery(symbol: string, timeframe: string, candle: Candle, killActive: bool) {
    function Stream(): (string, string) {
      (symbol, timeframe)
    }

    function Key(): (string, string, int) {
      (symbol, timeframe, candle.ts)
    }
  }

  function FreshState(rt: Runtime): State {
    State(S.STRATEGY_START, map s | s in rt.symbols :: ATR_START, map[], map s | s in rt.symbols :: REGIME_START, map[],
          Fresh(rt.setup.risk.capital))
  }

  function Windowed(w: seq<Candle>, c: Candle): seq<Candle> {
    var all := w + [c];
    if |all| <= WINDOW then all else all[|all| - WINDOW..]
  }

  function WindowOf(st: State, symbol: string): seq<Candle> {
    if symbol in st.windows then st.windows[symbol] else []
  }

  function ContextOf(s: S.StrategyState, reason: string, atr: Option<real>, regime: Option<string>): DecisionContext {
    DecisionContext(reason, atr, s.fast.current, s.slow.current, s.rsi.current, regime)
  }

  /** What an ATR tracker hands back for a candle: nothing for the very first one. */
  function AtrReading(before: AtrState, after: AtrState): Option<real> {
    if before.prevClose.None? then None else after.value
  }

  /** The pipeline without persistence; `None` when it raises (an unknown symbol, or the engine). */
  function Process(rt: Runtime, st: State, d: Delivery): Option<(State, RunnerEvent)>
    requires rt.Valid()
  {
    var window := Windowed(WindowOf(st, d.symbol), d.candle);
    var regime := rt.classify(window);
    if d.symbol !in st.atr || d.symbol !in st.regimes then None
    else
      var ar := rt.setup.ar;
      var strategy := S.Observe(ar, rt.strategy, st.strategy, d.candle.close);
      var signal := S.SignalOf(rt.strategy, strategy, d.candle.ts);
      var atr := AtrUpdate(ar, ATR_PERIOD, st.atr[d.symbol], d.candle);
      var reading := AtrReading(st.atr[d.symbol], atr);
      var tick := Tick(Decision(signal.action, Risk.Medium), d.candle.close, reading, d.candle.ts, d.killActive);
      match SessionStep(rt.setup, st.engine, tick)
      case None => None
      case Some((engine, body)) =>
        Some((State(strategy, st.atr[d.symbol := atr], st.windows[d.symbol := window],
                    st.regimes[d.symbol := ObserveRegime(st.regimes[d.symbol], regime, d.candle.ts)],
                    st.lastCandle, engine),
              RunnerEvent(d.symbol, d.timeframe, body, ContextOf(strategy, signal.reason, reading, regime))))
  }

  /** What the trackers hold, and what the engine holds, when the pipeline raises: everything done before the raise
      stays done. */
  function FaultState(rt: Runtime, st: State, d: Delivery): State
    requires rt.Valid()
  {
    var window := Windowed(WindowOf(st, d.symbol), d.candle);
    var seen := st.(windows := st.windows[d.symbol := window]);
    if d.symbol !in st.regimes then seen
    else
      var regime := ObserveRegime(st.regimes[d.symbol], rt.classify(window), d.candle.ts);
      var strategy := S.Observe(rt.setup.ar, rt.strategy, st.strategy, d.candle.close);
      var judged := seen.(regimes := st.regimes[d.symbol := regime], strategy := strategy);
      if d.symbol !in st.atr then judged
      else
        var atr := AtrUpdate(rt.setup.ar, ATR_PERIOD, st.atr[d.symbol], d.candle);
        var reading := AtrReading(st.atr[d.symbol], atr);
        var decision := Decision(S.SignalOf(rt.strategy, strategy, d.candle.ts).action, Risk.Medium);
        var ticked := OnPrice(rt.setup, st.engine, d.killActive, decision, d.candle.close, reading, d.candle.ts).0;
        judged.(atr := st.atr[d.symbol := atr], engine := ticked)
  }

  function Remember(st: State, d: Delivery): State {
    st.(lastCandle := st.lastCandle[d.Stream() := d.candle])
  }

  datatype Handled = Ignored | Refused | Accepted(state: State, event: RunnerEvent)

  /** One delivery: an older candle or a different one at the same time is refused, the same one again is ignored. */
  function Handle(rt: Runtime, st: State, d: Delivery): Handled
    requires rt.Valid()
  {
    var known := d.Stream() in st.lastCandle;
    if known && d.candle.ts < st.lastCandle[d.Stream()].ts then Refused
    else if known && d.candle.ts == st.lastCandle[d.Stream()].ts then
      if d.candle == st.lastCandle[d.Stream()] then Ignored else Refused
    else
      match Process(rt, Remember(st, d), d)
      case None => Refused
      case Some((next, event)) => Accepted(next, event)
  }

  /** A candle that is older than the last one of its stream, or another one at its time. */
  predicate Conflicts(st: State, d: Delivery) {
    && d.Stream() in st.lastCandle
    && d.candle.ts <= st.lastCandle[d.Stream()].ts
    && d.candle != st.lastCandle[d.Stream()]
  }

  /** The state a refusal leaves: untouched by a conflict, remembering the candle when the pipeline raised on it. */
  function AfterRefusal(rt: Runtime, st: State, d: Delivery): State
    requires rt.Valid()
  {
    if Conflicts(st, d) then st else FaultState(rt, Remember(st, d), d)
  }

  lemma {:induction false} FaultRemembers(rt: Runtime, st: State, d: Delivery)
    requires rt.Valid()
    ensures FaultState(rt, Remember(st, d), d).lastCandle == st.lastCandle[d.Stream() := d.candle]
  {
  }

  /** A refused candle stays refused or is swallowed. After a conflict it is refused again; one the pipeline raised on
      is remembered, so delivered again it is ignored, and a corrected candle for its time is refused. */
  lemma {:induction false} RefusedForGood(rt: Runtime, st: State, d: Delivery, again: Delivery)
    requires rt.Valid() && Handle(rt, st, d).Refused? && again.Stream() == d.Stream() && again.candle.ts == d.candle.ts
    ensures
      var after := AfterRefusal(rt, st, d);
      if Conflicts(st, d) then after == st && Handle(rt, after, d).Refused?
      else Handle(rt, after, again) == if again.candle == d.candle then Ignored else Refused
  {
    hide Process, FaultState;
    FaultRemembers(rt, st, d);
  }

  // ---- sessions

  datatype Live = Live(state: State, accepted: seq<Delivery>, events: seq<RunnerEvent>)

  /** A live session in which the pipeline never raised: its state, the deliveries that were neither repeats nor refused
      for a conflict, and their events. */
  function RunLive(rt: Runtime, ds: seq<Delivery>): Option<Live>
    requires rt.Valid()
  {
    if ds == [] then Some(Live(FreshState(rt), [], []))
    else
      match RunLive(rt, ds[..|ds| - 1])
      case None => None
      case Some(before) =>
        match Handle(rt, before.state, ds[|ds| - 1])
        case Refused => if Conflicts(before.state, ds[|ds| - 1]) then Some(before) else None
        case Ignored => Some(before)
        case Accepted(st, event) => Some(Live(st, before.accepted + [ds[|ds| - 1]], before.events + [event]))
  }

  // ---- recovery

  predicate FloatsClose(a: Option<real>, b: Option<real>, tol: real) {
    if a.None? || b.None? then a.None? && b.None?
    else Abs(a.value - b.value) <= tol * Max(1.0, Max(Abs(a.value), Abs(b.value)))
  }

  const TOLERANCE: real := 0.000000001

  predicate ContextsEquivalent(a: DecisionContext, b: DecisionContext) {
    && a.signalReason == b.signalReason && a.regime == b.regime
    && FloatsClose(a.atr, b.atr, TOLERANCE) && FloatsClose(a.emaFast, b.emaFast, TOLERANCE)
    && FloatsClose(a.emaSlow, b.emaSlow, TOLERANCE) && FloatsClose(a.rsi, b.rsi, TOLERANCE)
  }

  /** The fields that determine execution and state, floats up to a relative tolerance. */
  predicate EventsEquivalent(a: RunnerEvent, b: RunnerEvent) {
    var x, y := a.body, b.body;
    && x.action == y.action && x.filled == y.filled && x.riskReason == y.riskReason && x.exitReason == y.exitReason
    && x.killActive == y.killActive
    && FloatsClose(x.execPrice, y.execPrice, TOLERANCE) && FloatsClose(x.quantity, y.quantity, TOLERANCE)
    && FloatsClose(Some(x.fee), Some(y.fee), TOLERANCE)
    && FloatsClose(Some(x.slippageCost), Some(y.slippageCost), TOLERANCE)
    && FloatsClose(Some(x.equity), Some(y.equity), TOLERANCE)
    && ContextsEquivalent(a.context, b.context)
  }

  type Persisted = map<(string, string, int), RunnerEvent>

  datatype Recovery = Recovered(state: State) | Gap(at: nat) | Divergence(at: nat) | Raised(at: nat)

  /** Replay of the first `n` candles on a fresh runner whose kill switch stands at `kill`. */
  function ReplayTo(rt: Runtime, candles: seq<Delivery>, persisted: Persisted, kill: bool, n: nat): Recovery
    requires rt.Valid() && n <= |candles|
  {
    if n == 0 then Recovered(FreshState(rt))
    else
      match ReplayTo(rt, candles, persisted, kill, n - 1)
      case Recovered(st) => ReplayOne(rt, st, candles[n - 1].(killActive := kill), persisted, n - 1)
      case failed => failed
  }

  function ReplayOne(rt: Runtime, st: State, d: Delivery, persisted: Persisted, i: nat): Recovery
    requires rt.Valid()
  {
    match Process(rt, st, d)
    case None => Raised(i)
    case Some((next, event)) =>
      if d.Key() !in persisted then Gap(i)
      else if !EventsEquivalent(event, persisted[d.Key()]) then Divergence(i)
      else Recovered(Remember(next, d))
  }

  /** The persisted events by stream and time, as the recovery loads them. */
  function PersistedOf(events: seq<RunnerEvent>): Persisted {
    if events == [] then map[]
    else
      var e := events[|events| - 1];
      PersistedOf(events[..|events| - 1])[(e.symbol, e.timeframe, e.body.ts) := e]
  }

  // ---- the runner object

  class PaperRunner {
    const rt: Runtime
    const engine: PaperEngine
    const strategy: S.EmaRsiBaseline
    var atr: map<string, AtrState>
    var windows: map<string, seq<Candle>>
    var regimes: map<string, RegimeTracker>
    var lastCandle: map<(string, string), Candle>

    ghost predicate Valid() {
      && rt.Valid() && engine.Valid() && engine.setup == rt.setup
      && strategy.Valid() && strategy.cfg == rt.strategy && strategy.ar == rt.setup.ar
    }

    function View(): State
      reads this, engine, engine.portfolio, strategy.fast, strategy.slow, strategy.rsi
    {
      State(strategy.View(), atr, windows, regimes, lastCandle, engine.View())
    }

    constructor (rt: Runtime)
      requires rt.Valid()
      ensures Valid() && this.rt == rt && View() == FreshState(rt)
      ensures fresh(engine) && fresh(engine.portfolio) && fresh(engine.killSwitch)
      ensures fresh(strategy) && fresh(strategy.fast) && fresh(strategy.slow) && fresh(strategy.rsi)
    {
      this.rt := rt;
      engine := new PaperEngine(rt.setup);
      strategy := new S.EmaRsiBaseline(rt.setup.ar, rt.strategy);
      atr := map s | s in rt.symbols :: ATR_START;
      windows := map[];
      regimes := map s | s in rt.symbols :: REGIME_START;
      lastCandle := map[];
    }

    /** `event` is what the pipeline emits; `None` when it raises. */
    method ProcessCandle(symbol: string, timeframe: string, candle: Candle) returns (event: Option<RunnerEvent>)
      requires Valid()
      modifies this, engine, engine.portfolio, strategy.fast, strategy.slow, strategy.rsi
      ensures engine.killSwitch == old(engine.killSwitch)
      ensures
        var spec := Process(rt, old(View()), Delivery(symbol, timeframe, candle, old(engine.killSwitch.state.active)));
        && (event.None? <==> spec.None?)
        && (event.Some? ==> spec.value == (View(), event.value))
      ensures
        event.None? ==>
          var kill := old(engine.killSwitch.state.active);
          View() == FaultState(rt, old(View()), Delivery(symbol, timeframe, candle, kill))
    {
      hide SessionStep, OnPrice;
      var w := if symbol in windows then windows[symbol] else [];
      windows := windows[symbol := Windowed(w, candle)];
      var regime := rt.classify(windows[symbol]);
      if symbol !in regimes {
        return None;
      }
      regimes := regimes[symbol := ObserveRegime(regimes[symbol], regime, candle.ts)];
      var signal := strategy.OnCandle(candle);
      if symbol !in atr {
        return None;
      }
      var before := atr[symbol];
      atr := atr[symbol := AtrUpdate(rt.setup.ar, ATR_PERIOD, before, candle)];
      var reading := AtrReading(before, atr[symbol]);
      var decision := Decision(signal.action, Risk.Medium);
      var body := TickEngine(decision, candle, reading);
      if body.None? {
        return None;
      }
      var context := ContextOf(strategy.View(), signal.reason, reading, regime);
      return Some(RunnerEvent(symbol, timeframe, body.value, context));
    }

    /** The engine call and the marking at the close, as one line of the session log; `None` when the engine raises. */
    method TickEngine(decision: Decision, candle: Candle, reading: Option<real>) returns (body: Option<LogEvent>)
      requires Valid()
      modifies engine, engine.portfolio
      ensures engine.killSwitch == old(engine.killSwitch)
      ensures
        var tick := Tick(decision, candle.close, reading, candle.ts, old(engine.killSwitch.state.active));
        var spec := SessionStep(rt.setup, old(engine.View()), tick);
        && (body.None? <==> spec.None?)
        && (body.Some? ==> spec.value == (engine.View(), body.value))
      ensures
        body.None? ==>
          var kill := old(engine.killSwitch.state.active);
          engine.View()
          == OnPrice(rt.setup, old(engine.View()), kill, decision, candle.close, reading, candle.ts).0
    {
      hide OnPrice;
      var outcome := engine.OnPriceTick(decision, candle.close, reading, candle.ts);
      if !outcome.Done? {
        return None;
      }
      var equity := engine.MarkToMarket(candle.close);
      var tick := Tick(decision, candle.close, reading, candle.ts, engine.killSwitch.state.active);
      return Some(Logged(tick, outcome.event, equity));
    }

    method HandleCandle(
      symbol: string, timeframe: string, candle: Candle)
      returns (event: Option<RunnerEvent>, refused: bool)
      requires Valid()
      modifies this, engine, engine.portfolio, strategy.fast, strategy.slow, strategy.rsi
      ensures engine.killSwitch == old(engine.killSwitch)
      ensures
        var d := Delivery(symbol, timeframe, candle, old(engine.killSwitch.state.active));
        match Handle(rt, old(View()), d)
        case Ignored => !refused && event.None? && View() == old(View())
        case Refused => refused && event.None? && View() == AfterRefusal(rt, old(View()), d)
        case Accepted(st, e) => !refused && event == Some(e) && View() == st
    {
      hide Process, FaultState;
      var key := (symbol, timeframe);
      if key in lastCandle {
        var previous := lastCandle[key];
        if candle.ts < previous.ts {
          return None, true;
        }
        if candle.ts == previous.ts {
          return None, candle != previous;
        }
      }
      lastCandle := lastCandle[key := candle];
      event := ProcessCandle(symbol, timeframe, candle);
      refused := event.None?;
    }

    /** One candle of the recovery; `failure` is the error it stops with. */
    method ReplayCandle(d: Delivery, persisted: Persisted, i: nat) returns (failure: Option<Recovery>)
      requires Valid()
      modifies this, engine, engine.portfolio, strategy.fast, strategy.slow, strategy.rsi
      ensures engine.killSwitch == old(engine.killSwitch)
      ensures
        var spec := ReplayOne(rt, old(View()), d.(killActive := old(engine.killSwitch.state.active)), persisted, i);
        if spec.Recovered? then failure.None? && View() == spec.state else failure == Some(spec)
    {
      hide Process, EventsEquivalent, FaultState;
      var event := ProcessCandle(d.symbol, d.timeframe, d.candle);
      if event.None? {
        return Some(Raised(i));
      }
      lastCandle := lastCandle[d.Stream() := d.candle];
      if d.Key() !in persisted {
        return Some(Gap(i));
      }
      if !EventsEquivalent(event.value, persisted[d.Key()]) {
        return Some(Divergence(i));
      }
      return None;
    }

    /** Recovery: process every candle again and check it against what was persisted. */
    method ReplayCandles(candles: seq<Delivery>, persisted: Persisted) returns (r: Recovery)
      requires Valid() && View() == FreshState(rt)
      modifies this, engine, engine.portfolio, strategy.fast, strategy.slow, strategy.rsi
      ensures
        var spec := ReplayTo(rt, candles, persisted, old(engine.killSwitch.state.active), |candles|);
        r == spec && (spec.Recovered? ==> View() == spec.state)
    {
      hide ReplayOne, Process, EventsEquivalent;
      ghost var kill := engine.killSwitch.state.active;
      for i := 0 to |candles|
        invariant engine.killSwitch == old(engine.killSwitch)
        invariant ReplayTo(rt, candles, persisted, kill, i) == Recovered(View())
      {
        NextCandle(rt, candles, persisted, kill, i, View());
        var failure := ReplayCandle(candles[i], persisted, i);
        if failure.Some? {
          FailureStays(rt, candles, persisted, kill, i + 1, |candles|);
          return failure.value;
        }
      }
      return Recovered(View());
    }
  }

  lemma {:induction false} NextCandle(
    rt: Runtime, candles: seq<Delivery>, persisted: Persisted, kill: bool, i: nat, st: State)
    requires rt.Valid() && i < |candles| && ReplayTo(rt, candles, persisted, kill, i) == Recovered(st)
    ensures
      ReplayTo(rt, candles, persisted, kill, i + 1)
      == ReplayOne(rt, st, candles[i].(killActive := kill), persisted, i)
  {
  }

  lemma {:induction false} FailureStays(
    rt: Runtime, candles: seq<Delivery>, persisted: Persisted, kill: bool, n: nat, m: nat)
    requires rt.Valid() && n <= m <= |candles| && !ReplayTo(rt, candles, persisted, kill, n).Recovered?
    ensures ReplayTo(rt, candles, persisted, kill, m) == ReplayTo(rt, candles, persisted, kill, n)
  {
    if n < m {
      FailureStays(rt, candles, persisted, kill, n, m - 1);
    }
  }
}
