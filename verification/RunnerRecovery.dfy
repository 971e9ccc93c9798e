/** Recovery equals live, exactly when the kill switch stood still; and what each persisted context means. */
module RunnerRecovery {
  import opened Numerics
  import opened PaperTrading
  import opened Indicators
  import opened Runner
  import S = Strategy

  // ---- repeated deliveries

  /** A session is its deduplicated self: dropping the ignored repeats and the refused conflicts changes neither state
      nor events. */
  lemma {:induction false} RepeatsChangeNothing(rt: Runtime, ds: seq<Delivery>)
    requires rt.Valid() && RunLive(rt, ds).Some?
    ensures RunLive(rt, RunLive(rt, ds).value.accepted) == RunLive(rt, ds)
  {
    if ds != [] {
      var front, d := ds[..|ds| - 1], ds[|ds| - 1];
      RepeatsChangeNothing(rt, front);
      var before := RunLive(rt, front).value;
      match Handle(rt, before.state, d) {
        case Ignored =>
        case Accepted(st, event) =>
          var accepted := before.accepted + [d];
          assert accepted[..|accepted| - 1] == before.accepted;
        case Refused =>
      }
    }
  }

  // ---- keys

  predicate Named(events: seq<RunnerEvent>, ds: seq<Delivery>) {
    |events| == |ds| &&
    forall i :: 0 <= i < |ds| ==>
      && events[i].symbol == ds[i].symbol && events[i].timeframe == ds[i].timeframe
      && events[i].body.ts == ds[i].candle.ts && events[i].body.killActive == ds[i].killActive
  }

  predicate DistinctKeys(ds: seq<Delivery>) {
    forall i, j :: 0 <= i < j < |ds| && ds[i].Stream() == ds[j].Stream() ==> ds[i].candle.ts < ds[j].candle.ts
  }

  predicate Remembered(st: State, ds: seq<Delivery>) {
    forall i :: 0 <= i < |ds| ==>
      ds[i].Stream() in st.lastCandle && ds[i].candle.ts <= st.lastCandle[ds[i].Stream()].ts
  }

  lemma {:induction false} ProcessNames(rt: Runtime, st: State, d: Delivery)
    requires rt.Valid() && Process(rt, st, d).Some?
    ensures
      var (next, event) := Process(rt, st, d).value;
      && event.symbol == d.symbol && event.timeframe == d.timeframe
      && event.body.ts == d.candle.ts && event.body.killActive == d.killActive
      && next.lastCandle == st.lastCandle
  {
  }

  lemma {:induction false} AcceptNames(rt: Runtime, st: State, d: Delivery)
    requires rt.Valid() && Handle(rt, st, d).Accepted?
    ensures
      var h := Handle(rt, st, d);
      && h.event.symbol == d.symbol && h.event.timeframe == d.timeframe
      && h.event.body.ts == d.candle.ts && h.event.body.killActive == d.killActive
      && h.state.lastCandle == st.lastCandle[d.Stream() := d.candle]
      && (d.Stream() in st.lastCandle ==> st.lastCandle[d.Stream()].ts < d.candle.ts)
  {
    ProcessNames(rt, Remember(st, d), d);
  }

  lemma {:induction false} LiveStep(rt: Runtime, ds: seq<Delivery>)
    requires rt.Valid() && ds != [] && RunLive(rt, ds).Some?
    ensures RunLive(rt, ds[..|ds| - 1]).Some?
    ensures
      var before, after := RunLive(rt, ds[..|ds| - 1]).value, RunLive(rt, ds).value;
      var h := Handle(rt, before.state, ds[|ds| - 1]);
      && (h.Refused? ==> Conflicts(before.state, ds[|ds| - 1]))
      && after == (if h.Accepted? then Live(h.state, before.accepted + [ds[|ds| - 1]], before.events + [h.event])
                   else before)
  {
  }

  predicate Keyed(live: Live) {
    Named(live.events, live.accepted) && DistinctKeys(live.accepted) && Remembered(live.state, live.accepted)
  }

  lemma {:induction false} AcceptKeyed(live: Live, d: Delivery, st: State, e: RunnerEvent)
    requires Keyed(live)
    requires e.symbol == d.symbol && e.timeframe == d.timeframe
    requires e.body.ts == d.candle.ts && e.body.killActive == d.killActive
    requires st.lastCandle == live.state.lastCandle[d.Stream() := d.candle]
    requires d.Stream() in live.state.lastCandle ==> live.state.lastCandle[d.Stream()].ts < d.candle.ts
    ensures Keyed(Live(st, live.accepted + [d], live.events + [e]))
  {
  }

  lemma {:induction false} LiveKeys(rt: Runtime, ds: seq<Delivery>)
    requires rt.Valid() && RunLive(rt, ds).Some?
    ensures Keyed(RunLive(rt, ds).value)
  {
    if ds != [] {
      LiveStep(rt, ds);
      LiveKeys(rt, ds[..|ds| - 1]);
      var before, d := RunLive(rt, ds[..|ds| - 1]).value, ds[|ds| - 1];
      var h := Handle(rt, before.state, d);
      if h.Accepted? {
        AcceptNames(rt, before.state, d);
        AcceptKeyed(before, d, h.state, h.event);
      }
    }
  }

  /** Each accepted candle finds its own event under its key. */
  lemma {:induction false} PersistedFindsEvent(events: seq<RunnerEvent>, ds: seq<Delivery>, i: nat)
    requires Named(events, ds) && DistinctKeys(ds) && i < |ds|
    ensures ds[i].Key() in PersistedOf(events) && PersistedOf(events)[ds[i].Key()] == events[i]
  {
    var n := |ds| - 1;
    if i < n {
      PersistedFindsEvent(events[..n], ds[..n], i);
      if ds[i].Stream() == ds[n].Stream() {
        assert ds[i].candle.ts < ds[n].candle.ts;
      }
    }
  }

  // ---- recovery

  lemma {:induction false} SelfEquivalent(e: RunnerEvent)
    ensures EventsEquivalent(e, e)
  {
  }

  /** Remembering the candle before or after processing it is the same. */
  lemma {:induction false} ProcessCommutes(rt: Runtime, st: State, d: Delivery)
    requires rt.Valid()
    ensures Process(rt, Remember(st, d), d).Some? <==> Process(rt, st, d).Some?
    ensures Process(rt, st, d).Some? ==>
      var (next, event) := Process(rt, st, d).value;
      Process(rt, Remember(st, d), d).value == (Remember(next, d), event)
  {
  }

  /** A replayed candle under the kill switch it was processed with reproduces its event and the next live state. */
  lemma {:induction false} SameSwitchRecovers(rt: Runtime, st: State, d: Delivery, persisted: Persisted, i: nat)
    requires rt.Valid() && Handle(rt, st, d).Accepted?
    requires d.Key() in persisted && persisted[d.Key()] == Handle(rt, st, d).event
    ensures ReplayOne(rt, st, d, persisted, i) == Recovered(Handle(rt, st, d).state)
  {
    ProcessCommutes(rt, st, d);
    SelfEquivalent(Handle(rt, st, d).event);
  }

  /** Under another setting of the switch the candle cannot pass: the event records the setting. */
  lemma {:induction false} OtherSwitchFails(
    rt: Runtime, st: State, d: Delivery, kill: bool, persisted: Persisted, i: nat)
    requires rt.Valid() && kill != d.killActive
    requires d.Key() in persisted && persisted[d.Key()].body.killActive == d.killActive
    ensures !ReplayOne(rt, st, d.(killActive := kill), persisted, i).Recovered?
  {
    var again := d.(killActive := kill);
    assert again.Key() == d.Key();
    if Process(rt, st, again).Some? {
      ProcessNames(rt, st, again);
    }
  }

  predicate SwitchStood(ds: seq<Delivery>, kill: bool) {
    forall i :: 0 <= i < |ds| ==> ds[i].killActive == kill
  }

  /** The live session after its first `n` accepted candles. */
  lemma {:induction false} LivePrefix(rt: Runtime, ds: seq<Delivery>, n: nat)
    requires rt.Valid() && RunLive(rt, ds).Some? && RunLive(rt, ds).value.accepted == ds && n <= |ds|
    ensures RunLive(rt, ds[..n]).Some? && RunLive(rt, ds[..n]).value.accepted == ds[..n]
    ensures |RunLive(rt, ds).value.events| == |ds|
    ensures RunLive(rt, ds[..n]).value.events == RunLive(rt, ds).value.events[..n]
  {
    hide Process, Handle;
    LiveKeys(rt, ds);
    if n == |ds| {
      assert ds[..n] == ds;
    } else {
      var front := ds[..|ds| - 1];
      LiveStep(rt, ds);
      LiveLength(rt, front);
      assert RunLive(rt, ds).value.accepted[..|ds| - 1] == front;
      LivePrefix(rt, front, n);
      assert front[..n] == ds[..n];
    }
  }

  lemma {:induction false} LiveLength(rt: Runtime, ds: seq<Delivery>)
    requires rt.Valid() && RunLive(rt, ds).Some?
    ensures |RunLive(rt, ds).value.accepted| <= |ds|
  {
    if ds != [] {
      LiveStep(rt, ds);
      LiveLength(rt, ds[..|ds| - 1]);
    }
  }

  lemma {:induction false} RecoverNext(rt: Runtime, ds: seq<Delivery>, kill: bool, n: nat)
    requires rt.Valid() && RunLive(rt, ds).Some? && RunLive(rt, ds).value.accepted == ds && n < |ds|
    ensures RunLive(rt, ds[..n]).Some? && RunLive(rt, ds[..n + 1]).Some?
    ensures
      var r := ReplayOne(rt, RunLive(rt, ds[..n]).value.state, ds[n].(killActive := kill),
                         PersistedOf(RunLive(rt, ds).value.events), n);
      && (r.Recovered? <==> ds[n].killActive == kill)
      && (r.Recovered? ==> r.state == RunLive(rt, ds[..n + 1]).value.state)
  {
    hide Process, EventsEquivalent, Keyed, SwitchStood;
    var events := RunLive(rt, ds).value.events;
    var here := ds[..n + 1];
    LivePrefix(rt, ds, n);
    LivePrefix(rt, ds, n + 1);
    LiveKeys(rt, ds);
    PersistedFindsEvent(events, ds, n);
    LiveStep(rt, here);
    assert here[..|here| - 1] == ds[..n];
    assert events[n] == events[..n + 1][n];
    if ds[n].killActive == kill {
      assert ds[n].(killActive := kill) == ds[n];
      SameSwitchRecovers(rt, RunLive(rt, ds[..n]).value.state, ds[n], PersistedOf(events), n);
    } else {
      OtherSwitchFails(rt, RunLive(rt, ds[..n]).value.state, ds[n], kill, PersistedOf(events), n);
    }
  }

  lemma {:induction false} SwitchOneMore(ds: seq<Delivery>, kill: bool, n: nat)
    requires n < |ds|
    ensures SwitchStood(ds[..n + 1], kill) <==> SwitchStood(ds[..n], kill) && ds[n].killActive == kill
  {
    assert ds[..n + 1] == ds[..n] + [ds[n]];
    assert SwitchStood(ds[..n + 1], kill) ==> ds[..n + 1][n].killActive == kill;
    assert forall i :: 0 <= i < n ==> ds[..n + 1][i] == ds[..n][i];
  }

  lemma {:induction false} RecoveryOfPrefix(rt: Runtime, ds: seq<Delivery>, kill: bool, n: nat)
    requires rt.Valid() && RunLive(rt, ds).Some? && RunLive(rt, ds).value.accepted == ds && n <= |ds|
    ensures RunLive(rt, ds[..n]).Some?
    ensures
      var r := ReplayTo(rt, ds, PersistedOf(RunLive(rt, ds).value.events), kill, n);
      && (r.Recovered? <==> SwitchStood(ds[..n], kill))
      && (r.Recovered? ==> r.state == RunLive(rt, ds[..n]).value.state)
  {
    LivePrefix(rt, ds, n);
    if n > 0 {
      var k := n - 1;
      var persisted := PersistedOf(RunLive(rt, ds).value.events);
      RecoveryOfPrefix(rt, ds, kill, k);
      SwitchOneMore(ds, kill, k);
      var before := ReplayTo(rt, ds, persisted, kill, k);
      if before.Recovered? {
        NextCandle(rt, ds, persisted, kill, k, before.state);
        RecoverNext(rt, ds, kill, k);
      } else {
        FailureStays(rt, ds, persisted, kill, k, n);
      }
    }
  }

  /** Recovery equals live: a fresh runner that replays the accepted candles against the events they left reaches the
      live runner's state without raising if and only if the kill switch it is given stands where it stood for every
      one of those candles. */
  lemma {:induction false} RecoveryIffSwitchStood(rt: Runtime, ds: seq<Delivery>, kill: bool)
    requires rt.Valid() && RunLive(rt, ds).Some?
    ensures
      var live := RunLive(rt, ds).value;
      var r := ReplayTo(rt, live.accepted, PersistedOf(live.events), kill, |live.accepted|);
      && (r.Recovered? <==> SwitchStood(live.accepted, kill))
      && (r.Recovered? ==> r.state == live.state)
  {
    var live := RunLive(rt, ds).value;
    RepeatsChangeNothing(rt, ds);
    RecoveryOfPrefix(rt, live.accepted, kill, |live.accepted|);
    assert live.accepted[..|live.accepted|] == live.accepted;
  }

  // ---- decision contexts

  /** The candles of a session. */
  function CandlesOf(ds: seq<Delivery>): (r: seq<Candle>)
    ensures |r| == |ds| && forall i :: 0 <= i < |r| ==> r[i] == ds[i].candle
  {
    seq(|ds|, i requires 0 <= i < |ds| => ds[i].candle)
  }

  function LastWindow(candles: seq<Candle>): seq<Candle> {
    if |candles| <= WINDOW then candles else candles[|candles| - WINDOW..]
  }

  /** What the decision at index `i` saw, read off the whole series of candles. */
  function BatchContext(rt: Runtime, candles: seq<Candle>, i: nat): DecisionContext
    requires rt.Valid() && i < |candles|
  {
    var ar, cfg, closes := rt.setup.ar, rt.strategy, Closes(candles);
    DecisionContext(
      S.BatchSignal(ar, cfg, closes, i, candles[i].ts).reason,
      AtrAt(ar, candles, ATR_PERIOD, i),
      EmaAt(ar, closes, cfg.emaFast, i), EmaAt(ar, closes, cfg.emaSlow, i), RsiAt(ar, closes, cfg.rsiPeriod, i),
      rt.classify(LastWindow(candles[..i + 1])))
  }

  lemma {:induction false} WindowGrows(candles: seq<Candle>, c: Candle)
    ensures Windowed(LastWindow(candles), c) == LastWindow(candles + [c])
  {
  }

  lemma {:induction false} ClosesGrow(candles: seq<Candle>, c: Candle)
    ensures Closes(candles + [c]) == Closes(candles) + [c.close]
  {
  }

  /** The strategy and ATR trackers, fed candle by candle, read what the whole series says at its last index. */
  lemma {:induction false} TrackersReadSeries(rt: Runtime, candles: seq<Candle>)
    requires rt.Valid() && candles != []
    ensures
      var ar, cfg, i := rt.setup.ar, rt.strategy, |candles| - 1;
      var s := S.StrategyFeed(ar, cfg, Closes(candles));
      && S.SignalOf(cfg, s, candles[i].ts) == S.BatchSignal(ar, cfg, Closes(candles), i, candles[i].ts)
      && s.fast.current == EmaAt(ar, Closes(candles), cfg.emaFast, i)
      && s.slow.current == EmaAt(ar, Closes(candles), cfg.emaSlow, i)
      && s.rsi.current == RsiAt(ar, Closes(candles), cfg.rsiPeriod, i)
      && AtrFeed(ar, ATR_PERIOD, candles).value == AtrAt(ar, candles, ATR_PERIOD, i)
  {
    var ar, cfg, closes, i := rt.setup.ar, rt.strategy, Closes(candles), |candles| - 1;
    assert closes[..i + 1] == closes && candles[..i + 1] == candles;
    S.StrategyStreamsTheRule(ar, cfg, closes, i, candles[i].ts);
    S.StrategyFeedParts(ar, cfg, closes);
    S.EmaStreamsTheSeries(ar, cfg.emaFast, closes, i);
    S.EmaStreamsTheSeries(ar, cfg.emaSlow, closes, i);
    S.RsiStreamsTheSeries(ar, cfg.rsiPeriod, closes, i);
    AtrStreamsTheSeries(ar, ATR_PERIOD, candles, i);
  }

  lemma {:induction false} FirstReading(rt: Runtime, candles: seq<Candle>)
    requires candles != []
    ensures
      var ar, n := rt.setup.ar, |candles|;
      AtrReading(AtrFeed(ar, ATR_PERIOD, candles[..n - 1]), AtrFeed(ar, ATR_PERIOD, candles))
      == AtrAt(ar, candles, ATR_PERIOD, n - 1)
  {
    var n := |candles|;
    AtrMemory(rt.setup.ar, ATR_PERIOD, candles, n - 1);
    AtrMemory(rt.setup.ar, ATR_PERIOD, candles, n);
    assert candles[..n] == candles;
  }

  /** A context depends on nothing after its own candle. */
  lemma {:induction false} ContextCausal(rt: Runtime, a: seq<Candle>, b: seq<Candle>, i: nat)
    requires rt.Valid() && i < |a| && i < |b| && a[..i + 1] == b[..i + 1]
    ensures BatchContext(rt, a, i) == BatchContext(rt, b, i)
  {
    var ar, cfg, x, y := rt.setup.ar, rt.strategy, Closes(a), Closes(b);
    assert a[i] == a[..i + 1][i] == b[..i + 1][i] == b[i];
    assert x[..i + 1] == Closes(a[..i + 1]) == Closes(b[..i + 1]) == y[..i + 1];
    AtrCausal(ar, a, b, ATR_PERIOD, i);
    S.EmaCausal(ar, x, y, cfg.emaFast, i);
    S.EmaCausal(ar, x, y, cfg.emaSlow, i);
    S.RsiCausal(ar, x, y, cfg.rsiPeriod, i);
    if i > 0 {
      assert x[..i] == x[..i + 1][..i] == y[..i];
      S.EmaCausal(ar, x, y, cfg.emaFast, i - 1);
      S.EmaCausal(ar, x, y, cfg.emaSlow, i - 1);
    }
  }

  /** The deliveries of one symbol, in order. */
  function OfSymbol(ds: seq<Delivery>, symbol: string): (r: seq<Delivery>)
    ensures |r| <= |ds|
    ensures ds != [] && ds[|ds| - 1].symbol == symbol ==> r != [] && r[|r| - 1] == ds[|ds| - 1]
  {
    if ds == [] then []
    else OfSymbol(ds[..|ds| - 1], symbol) + if ds[|ds| - 1].symbol == symbol then [ds[|ds| - 1]] else []
  }

  function CandlesOfSymbol(ds: seq<Delivery>, symbol: string): seq<Candle> {
    CandlesOf(OfSymbol(ds, symbol))
  }

  lemma {:induction false} OfSymbolExtends(ds: seq<Delivery>, d: Delivery, symbol: string)
    ensures
      CandlesOfSymbol(ds + [d], symbol) ==
      if d.symbol == symbol then CandlesOfSymbol(ds, symbol) + [d.candle] else CandlesOfSymbol(ds, symbol)
  {
    assert (ds + [d])[..|ds|] == ds;
    if d.symbol == symbol {
      CandlesExtend(OfSymbol(ds, symbol), d);
    }
  }

  /** The trackers of a runner that has taken some deliveries: the one strategy has seen them all, an ATR tracker and a
      window only those of their symbol. */
  predicate Fed(rt: Runtime, st: State, ds: seq<Delivery>)
    requires rt.Valid()
  {
    && st.strategy == S.StrategyFeed(rt.setup.ar, rt.strategy, Closes(CandlesOf(ds)))
    && forall s :: s in st.atr ==> FedSymbol(rt, st, s, CandlesOfSymbol(ds, s))
  }

  predicate FedSymbol(rt: Runtime, st: State, symbol: string, candles: seq<Candle>)
    requires symbol in st.atr
  {
    st.atr[symbol] == AtrFeed(rt.setup.ar, ATR_PERIOD, candles) && WindowOf(st, symbol) == LastWindow(candles)
  }

  /** The context stored for the last of some deliveries: signal, averages and RSI of all of them, ATR and regime of
      those of its symbol. */
  function StoredContext(rt: Runtime, ds: seq<Delivery>): DecisionContext
    requires rt.Valid() && ds != []
  {
    var own := RecomputedContext(rt, ds);
    BatchContext(rt, CandlesOf(ds), |ds| - 1).(atr := own.atr, regime := own.regime)
  }

  /** What recomputing from the candles of its own stream gives for the last of some deliveries. */
  function RecomputedContext(rt: Runtime, ds: seq<Delivery>): DecisionContext
    requires rt.Valid() && ds != []
  {
    var own := CandlesOfSymbol(ds, ds[|ds| - 1].symbol);
    BatchContext(rt, own, |own| - 1)
  }

  lemma {:induction false} ProcessParts(rt: Runtime, st: State, d: Delivery)
    requires rt.Valid() && Process(rt, st, d).Some?
    ensures d.symbol in st.atr
    ensures
      var (next, event) := Process(rt, st, d).value;
      var ar, window := rt.setup.ar, Windowed(WindowOf(st, d.symbol), d.candle);
      && next.strategy == S.Observe(ar, rt.strategy, st.strategy, d.candle.close)
      && d.symbol in next.atr && next.atr[d.symbol] == AtrUpdate(ar, ATR_PERIOD, st.atr[d.symbol], d.candle)
      && WindowOf(next, d.symbol) == window
      && next.atr.Keys == st.atr.Keys
      && (forall s :: s in st.atr && s != d.symbol ==>
            next.atr[s] == st.atr[s] && WindowOf(next, s) == WindowOf(st, s))
      && event.context ==
         ContextOf(next.strategy, S.SignalOf(rt.strategy, next.strategy, d.candle.ts).reason,
                   AtrReading(st.atr[d.symbol], next.atr[d.symbol]), rt.classify(window))
  {
  }

  lemma {:induction false} SymbolFed(rt: Runtime, st: State, d: Delivery, ds: seq<Delivery>, symbol: string)
    requires rt.Valid() && Fed(rt, st, ds) && Process(rt, st, d).Some? && symbol in st.atr
    ensures
      var next := Process(rt, st, d).value.0;
      symbol in next.atr && FedSymbol(rt, next, symbol, CandlesOfSymbol(ds + [d], symbol))
  {
    hide Process, AtrFeed, AtrUpdate, S.StrategyFeed, S.Observe, LastWindow, Windowed, CandlesOfSymbol;
    ProcessParts(rt, st, d);
    OfSymbolExtends(ds, d, symbol);
    assert FedSymbol(rt, st, symbol, CandlesOfSymbol(ds, symbol));
    FeedsNext(rt, CandlesOfSymbol(ds, symbol), d.candle);
  }

  lemma {:induction false} ProcessFeeds(rt: Runtime, st: State, d: Delivery, ds: seq<Delivery>)
    requires rt.Valid() && Fed(rt, st, ds) && Process(rt, st, d).Some?
    ensures
      var (next, event) := Process(rt, st, d).value;
      Fed(rt, next, ds + [d]) && event.context == StoredContext(rt, ds + [d])
  {
    hide Process, BatchContext, AtrFeed, AtrUpdate, S.StrategyFeed, S.Observe, S.SignalOf, LastWindow, Windowed;
    hide FedSymbol, CandlesOfSymbol;
    var (next, event) := Process(rt, st, d).value;
    var all := CandlesOf(ds);
    ProcessParts(rt, st, d);
    CandlesExtend(ds, d);
    FeedsNext(rt, all, d.candle);
    forall s | s in next.atr
      ensures FedSymbol(rt, next, s, CandlesOfSymbol(ds + [d], s))
    {
      SymbolFed(rt, st, d, ds, s);
    }
    ContextFed(rt, st, d, ds);
  }

  lemma {:induction false} ContextFed(rt: Runtime, st: State, d: Delivery, ds: seq<Delivery>)
    requires rt.Valid() && Fed(rt, st, ds) && Process(rt, st, d).Some?
    ensures Process(rt, st, d).value.1.context == StoredContext(rt, ds + [d])
  {
    hide Process, BatchContext, AtrFeed, AtrUpdate, S.StrategyFeed, S.Observe, S.SignalOf, LastWindow, Windowed;
    hide CandlesOfSymbol;
    var all, own := CandlesOf(ds), CandlesOfSymbol(ds, d.symbol);
    ProcessParts(rt, st, d);
    assert FedSymbol(rt, st, d.symbol, own);
    CandlesExtend(ds, d);
    OfSymbolExtends(ds, d, d.symbol);
    FeedsNext(rt, all, d.candle);
    FeedsNext(rt, own, d.candle);
    SharedContext(rt, all + [d.candle], own + [d.candle], d.candle.ts);
    assert (own + [d.candle])[..|own|] == own;
  }

  lemma {:induction false} FeedsNext(rt: Runtime, candles: seq<Candle>, c: Candle)
    requires rt.Valid()
    ensures
      var ar, cfg, after := rt.setup.ar, rt.strategy, candles + [c];
      && S.StrategyFeed(ar, cfg, Closes(after))
         == S.Observe(ar, cfg, S.StrategyFeed(ar, cfg, Closes(candles)), c.close)
      && AtrFeed(ar, ATR_PERIOD, after) == AtrUpdate(ar, ATR_PERIOD, AtrFeed(ar, ATR_PERIOD, candles), c)
      && LastWindow(after) == Windowed(LastWindow(candles), c)
  {
    hide S.StrategyFeed, S.Observe, AtrFeed, AtrUpdate, LastWindow, Windowed;
    var after := candles + [c];
    assert after[..|candles|] == candles && after[..|after|] == after;
    FeedsGrow(rt, after, |candles|);
  }

  /** Strategy trackers on one stream and an ATR tracker and window on another, both ending in the same candle. */
  lemma {:induction false} SharedContext(rt: Runtime, all: seq<Candle>, own: seq<Candle>, ts: int)
    requires rt.Valid() && all != [] && own != [] && all[|all| - 1].ts == ts
    ensures
      var ar, cfg := rt.setup.ar, rt.strategy;
      var s := S.StrategyFeed(ar, cfg, Closes(all));
      var reading := AtrReading(AtrFeed(ar, ATR_PERIOD, own[..|own| - 1]), AtrFeed(ar, ATR_PERIOD, own));
      var recomputed := BatchContext(rt, own, |own| - 1);
      ContextOf(s, S.SignalOf(cfg, s, ts).reason, reading, rt.classify(LastWindow(own)))
      == BatchContext(rt, all, |all| - 1).(atr := recomputed.atr, regime := recomputed.regime)
  {
    hide S.StrategyFeed, AtrFeed, S.SignalOf, S.BatchSignal, EmaAt, RsiAt, AtrAt, LastWindow;
    TrackersReadSeries(rt, all);
    FirstReading(rt, own);
    assert own[..|own|] == own;
  }

  predicate OneSymbol(ds: seq<Delivery>, symbol: string) {
    forall i :: 0 <= i < |ds| ==> ds[i].symbol == symbol
  }

  lemma {:induction false} RememberKeepsFed(rt: Runtime, st: State, d: Delivery, ds: seq<Delivery>)
    requires rt.Valid() && Fed(rt, st, ds)
    ensures Fed(rt, Remember(st, d), ds)
  {
    hide AtrFeed, S.StrategyFeed, LastWindow;
    forall s | s in st.atr
      ensures FedSymbol(rt, Remember(st, d), s, CandlesOfSymbol(ds, s))
    {
      assert FedSymbol(rt, st, s, CandlesOfSymbol(ds, s));
    }
  }

  lemma {:induction false} HandleFeeds(rt: Runtime, st: State, d: Delivery, ds: seq<Delivery>)
    requires rt.Valid() && Fed(rt, st, ds) && Handle(rt, st, d).Accepted?
    ensures
      var h := Handle(rt, st, d);
      Fed(rt, h.state, ds + [d]) && h.event.context == StoredContext(rt, ds + [d])
  {
    hide Process, Fed, StoredContext;
    RememberKeepsFed(rt, st, d, ds);
    ProcessFeeds(rt, Remember(st, d), d, ds);
  }

  /** A session so far: its trackers are fed and its stored contexts are those of the definitions. */
  predicate Followed(rt: Runtime, live: Live)
    requires rt.Valid()
  {
    && |live.events| == |live.accepted| && Fed(rt, live.state, live.accepted)
    && forall i {:trigger live.events[i]} :: 0 <= i < |live.events| ==>
         live.events[i].context == StoredContext(rt, live.accepted[..i + 1])
  }

  lemma {:induction false} AcceptFollows(rt: Runtime, live: Live, d: Delivery, st: State, e: RunnerEvent)
    requires rt.Valid() && Followed(rt, live)
    requires Fed(rt, st, live.accepted + [d]) && e.context == StoredContext(rt, live.accepted + [d])
    ensures Followed(rt, Live(st, live.accepted + [d], live.events + [e]))
  {
    hide Fed, StoredContext;
    var accepted := live.accepted + [d];
    forall i | 0 <= i <= |live.events|
      ensures (live.events + [e])[i].context == StoredContext(rt, accepted[..i + 1])
    {
      if i == |live.events| {
        assert accepted[..i + 1] == accepted;
      } else {
        assert accepted[..i + 1] == live.accepted[..i + 1];
      }
    }
  }

  lemma {:induction false} CandlesExtend(ds: seq<Delivery>, d: Delivery)
    ensures CandlesOf(ds + [d]) == CandlesOf(ds) + [d.candle]
  {
  }

  lemma {:induction false} LiveFeeds(rt: Runtime, ds: seq<Delivery>)
    requires rt.Valid() && RunLive(rt, ds).Some?
    ensures Followed(rt, RunLive(rt, ds).value)
  {
    hide Fed, StoredContext, Process;
    if ds == [] {
      NothingFollowed(rt);
    } else {
      var front, d := ds[..|ds| - 1], ds[|ds| - 1];
      LiveStep(rt, ds);
      LiveFeeds(rt, front);
      var before := RunLive(rt, front).value;
      var h := Handle(rt, before.state, d);
      if h.Accepted? {
        HandleFeeds(rt, before.state, d, before.accepted);
        AcceptFollows(rt, before, d, h.state, h.event);
      }
    }
  }

  lemma {:induction false} NothingFollowed(rt: Runtime)
    requires rt.Valid()
    ensures Followed(rt, Live(FreshState(rt), [], []))
  {
  }

  lemma {:induction false} FeedsGrow(rt: Runtime, candles: seq<Candle>, i: nat)
    requires rt.Valid() && i < |candles|
    ensures
      var ar, cfg, before, after := rt.setup.ar, rt.strategy, candles[..i], candles[..i + 1];
      && S.StrategyFeed(ar, cfg, Closes(after))
         == S.Observe(ar, cfg, S.StrategyFeed(ar, cfg, Closes(before)), candles[i].close)
      && AtrFeed(ar, ATR_PERIOD, after) == AtrUpdate(ar, ATR_PERIOD, AtrFeed(ar, ATR_PERIOD, before), candles[i])
      && LastWindow(after) == Windowed(LastWindow(before), candles[i])
  {
    var before, after := candles[..i], candles[..i + 1];
    assert after == before + [candles[i]] && after[..|after| - 1] == before;
    WindowGrows(before, candles[i]);
    ClosesGrow(before, candles[i]);
    assert Closes(after)[..|after| - 1] == Closes(before);
  }

  lemma {:induction false} FedContext(
    rt: Runtime, candles: seq<Candle>, i: nat, s: S.StrategyState, before: AtrState, atr: AtrState)
    requires rt.Valid() && i < |candles|
    requires s == S.StrategyFeed(rt.setup.ar, rt.strategy, Closes(candles[..i + 1]))
    requires before == AtrFeed(rt.setup.ar, ATR_PERIOD, candles[..i])
    requires atr == AtrFeed(rt.setup.ar, ATR_PERIOD, candles[..i + 1])
    ensures
      ContextOf(s, S.SignalOf(rt.strategy, s, candles[i].ts).reason, AtrReading(before, atr),
                rt.classify(LastWindow(candles[..i + 1])))
      == BatchContext(rt, candles, i)
  {
    var after := candles[..i + 1];
    assert after[..|after| - 1] == candles[..i] && after[..i + 1] == candles[..i + 1];
    TrackersReadSeries(rt, after);
    FirstReading(rt, after);
    ContextCausal(rt, after, candles, i);
  }

  /** Strategy and ATR trackers that have been fed the first `i` candles. */
  ghost predicate TrackersAt(
    rt: Runtime, candles: seq<Candle>, i: nat, strategy: S.EmaRsiBaseline, atr: AtrTracker)
    requires rt.Valid() && i <= |candles|
    reads strategy.fast, strategy.slow, strategy.rsi, atr
  {
    && strategy.Valid() && strategy.cfg == rt.strategy && strategy.ar == rt.setup.ar
    && atr.ar == rt.setup.ar && atr.period == ATR_PERIOD
    && strategy.View() == S.StrategyFeed(rt.setup.ar, rt.strategy, Closes(candles[..i]))
    && atr.View() == AtrFeed(rt.setup.ar, ATR_PERIOD, candles[..i])
  }

  method RecomputeOne(
    rt: Runtime, ghost candles: seq<Candle>, ghost i: nat, strategy: S.EmaRsiBaseline, atr: AtrTracker,
    window: seq<Candle>, candle: Candle)
    returns (context: DecisionContext)
    requires rt.Valid() && i < |candles| && candle == candles[i] && TrackersAt(rt, candles, i, strategy, atr)
    requires window == LastWindow(candles[..i + 1])
    modifies strategy.fast, strategy.slow, strategy.rsi, atr
    ensures TrackersAt(rt, candles, i + 1, strategy, atr) && context == BatchContext(rt, candles, i)
  {
    FeedsGrow(rt, candles, i);
    var regime := rt.classify(window);
    var signal := strategy.OnCandle(candle);
    ghost var before := atr.View();
    var reading := atr.Update(candle);
    FedContext(rt, candles, i, strategy.View(), before, atr.View());
    context := ContextOf(strategy.View(), signal.reason, reading, regime);
  }

  function BatchContexts(rt: Runtime, candles: seq<Candle>, n: nat): (r: seq<DecisionContext>)
    requires rt.Valid() && n <= |candles|
    ensures |r| == n
  {
    if n == 0 then [] else BatchContexts(rt, candles, n - 1) + [BatchContext(rt, candles, n - 1)]
  }

  lemma {:induction false} BatchContextsAt(rt: Runtime, candles: seq<Candle>, n: nat, i: nat)
    requires rt.Valid() && i < n <= |candles|
    ensures BatchContexts(rt, candles, n)[i] == BatchContext(rt, candles, i)
  {
    if i < n - 1 {
      BatchContextsAt(rt, candles, n - 1, i);
    }
  }

  /** Recomputing the contexts on fresh trackers, candle by candle. */
  method RecomputeDecisionContexts(rt: Runtime, candles: seq<Candle>) returns (contexts: seq<DecisionContext>)
    requires rt.Valid()
    ensures |contexts| == |candles|
    ensures forall i {:trigger contexts[i]} :: 0 <= i < |candles| ==> contexts[i] == BatchContext(rt, candles, i)
  {
    var strategy := new S.EmaRsiBaseline(rt.setup.ar, rt.strategy);
    var atr := new AtrTracker(rt.setup.ar, ATR_PERIOD);
    var window: seq<Candle> := [];
    contexts := [];
    for i := 0 to |candles|
      invariant fresh(strategy.fast) && fresh(strategy.slow) && fresh(strategy.rsi) && fresh(atr)
      invariant TrackersAt(rt, candles, i, strategy, atr)
      invariant window == LastWindow(candles[..i])
      invariant contexts == BatchContexts(rt, candles, i)
    {
      FeedsGrow(rt, candles, i);
      window := Windowed(window, candles[i]);
      var context := RecomputeOne(rt, candles, i, strategy, atr, window, candles[i]);
      contexts := contexts + [context];
    }
    forall i | 0 <= i < |candles|
      ensures contexts[i] == BatchContext(rt, candles, i)
    {
      BatchContextsAt(rt, candles, |candles|, i);
    }
  }

  /** No lookahead in what is persisted: in every session, of however many symbols, the context stored for a candle is
      that of the whole-series definitions, over everything accepted so far for the strategy's part and over the
      candles of its own symbol for the rest. */
  lemma {:induction false} StoredContexts(rt: Runtime, ds: seq<Delivery>, i: nat)
    requires rt.Valid() && RunLive(rt, ds).Some? && i < |RunLive(rt, ds).value.accepted|
    ensures
      var live := RunLive(rt, ds).value;
      && |live.events| == |live.accepted|
      && live.events[i].context == StoredContext(rt, live.accepted[..i + 1])
  {
    hide StoredContext;
    LiveFeeds(rt, ds);
  }

  lemma {:induction false} OnlyItsSymbol(ds: seq<Delivery>, symbol: string)
    requires OneSymbol(ds, symbol)
    ensures OfSymbol(ds, symbol) == ds
  {
    if ds != [] {
      OnlyItsSymbol(ds[..|ds| - 1], symbol);
    }
  }

  /** A session of one symbol stores, at each candle, what recomputing from its candles gives. */
  lemma {:induction false} OneSymbolRecomputes(rt: Runtime, ds: seq<Delivery>, symbol: string, i: nat)
    requires rt.Valid() && RunLive(rt, ds).Some? && i < |RunLive(rt, ds).value.accepted|
    requires OneSymbol(RunLive(rt, ds).value.accepted, symbol)
    ensures
      var live := RunLive(rt, ds).value;
      var candles := CandlesOf(live.accepted);
      |live.events| == |candles| && live.events[i].context == BatchContext(rt, candles, i)
  {
    hide RunLive;
    hide BatchContext;
    StoredContexts(rt, ds, i);
    var accepted := RunLive(rt, ds).value.accepted;
    OnlyItsSymbol(accepted[..i + 1], symbol);
    assert CandlesOf(accepted[..i + 1])[..i + 1] == CandlesOf(accepted)[..i + 1];
    ContextCausal(rt, CandlesOf(accepted[..i + 1]), CandlesOf(accepted), i);
  }

  lemma {:induction false} EmaWarm(ar: Arith, values: seq<real>, period: nat, i: nat)
    requires period >= 1 && i < |values|
    ensures EmaAt(ar, values, period, i).Some? <==> i + 1 >= period
  {
  }

  lemma {:induction false} LengthOfOwn(ds: seq<Delivery>, symbol: string)
    ensures |CandlesOfSymbol(ds, symbol)| == |OfSymbol(ds, symbol)|
  {
  }

  lemma {:induction false} ContextReadings(rt: Runtime, candles: seq<Candle>, i: nat)
    requires rt.Valid() && i < |candles|
    ensures
      var c, closes := BatchContext(rt, candles, i), Closes(candles);
      && c.emaFast == EmaAt(rt.setup.ar, closes, rt.strategy.emaFast, i)
      && c.emaSlow == EmaAt(rt.setup.ar, closes, rt.strategy.emaSlow, i)
      && c.rsi == RsiAt(rt.setup.ar, closes, rt.strategy.rsiPeriod, i)
  {
    hide EmaAt, RsiAt, AtrAt, S.BatchSignal, LastWindow;
  }

  lemma {:induction false} RsiWarm(ar: Arith, values: seq<real>, period: nat, i: nat)
    requires period >= 1 && i < |values|
    ensures RsiAt(ar, values, period, i).Some? <==> i >= period
  {
  }

  /** With several symbols it need not: the one strategy warms up on all of them. Under any arithmetic, a candle whose
      own stream is too short for an average or the RSI, in a session that is not, stores a value that recomputing does
      not give. */
  lemma {:induction false} MixedSymbolsDiffer(rt: Runtime, ds: seq<Delivery>, i: nat)
    requires rt.Valid() && RunLive(rt, ds).Some? && i < |RunLive(rt, ds).value.accepted|
    requires
      var seen := RunLive(rt, ds).value.accepted[..i + 1];
      var own := |OfSymbol(seen, seen[i].symbol)|;
      || own < rt.strategy.emaFast <= i + 1 || own < rt.strategy.emaSlow <= i + 1
      || own <= rt.strategy.rsiPeriod <= i
    ensures
      var live := RunLive(rt, ds).value;
      |live.events| == |live.accepted| && live.events[i].context != RecomputedContext(rt, live.accepted[..i + 1])
  {
    hide EmaAt, RsiAt, BatchContext, RunLive, CandlesOfSymbol;
    StoredContexts(rt, ds, i);
    var seen := RunLive(rt, ds).value.accepted[..i + 1];
    var streams := CandlesOfSymbol(seen, seen[i].symbol);
    var all, own := Closes(CandlesOf(seen)), Closes(streams);
    LengthOfOwn(seen, seen[i].symbol);
    ContextReadings(rt, CandlesOf(seen), i);
    ContextReadings(rt, streams, |streams| - 1);
    EmaWarm(rt.setup.ar, all, rt.strategy.emaFast, i);
    EmaWarm(rt.setup.ar, own, rt.strategy.emaFast, |own| - 1);
    EmaWarm(rt.setup.ar, all, rt.strategy.emaSlow, i);
    EmaWarm(rt.setup.ar, own, rt.strategy.emaSlow, |own| - 1);
    RsiWarm(rt.setup.ar, all, rt.strategy.rsiPeriod, i);
    RsiWarm(rt.setup.ar, own, rt.strategy.rsiPeriod, |own| - 1);
  }
}
