/** What a live session of the runner is: a paper session driven by the strategy on the deliveries that were new. */
module RunnerMeaning {
  import opened Numerics
  import opened Portfolio
  import opened PaperTrading
  import opened Indicators
  import opened Runner
  import opened RunnerRecovery
  import opened RegimeMeaning
  import S = Strategy
  import Risk
  import PaperSafety

  // ---- the regimes of a session

  /** How the candles of a symbol are classified one by one, each with the last hundred up to it. */
  function NamesOf(rt: Runtime, candles: seq<Candle>): (r: Names)
    ensures |r| == |candles|
  {
    seq(|candles|, i requires 0 <= i < |candles| => rt.classify(LastWindow(candles[..i + 1])))
  }

  function TimesOf(candles: seq<Candle>): (r: seq<int>)
    ensures |r| == |candles|
  {
    seq(|candles|, i requires 0 <= i < |candles| => candles[i].ts)
  }

  predicate Watched(rt: Runtime, st: State, ds: seq<Delivery>) {
    && st.regimes.Keys == rt.symbols && st.atr.Keys == rt.symbols
    && forall s :: s in st.regimes ==>
         var own := CandlesOfSymbol(ds, s);
         st.regimes[s] == Observed(NamesOf(rt, own), TimesOf(own), |own|)
  }

  lemma {:induction false} ObservedPrefix(a: Names, s: seq<int>, b: Names, t: seq<int>, n: nat)
    requires n <= |a| == |s| && n <= |b| == |t| && a[..n] == b[..n] && s[..n] == t[..n]
    ensures Observed(a, s, n) == Observed(b, t, n)
  {
    if n > 0 {
      assert a[..n][n - 1] == b[..n][n - 1] && s[..n][n - 1] == t[..n][n - 1];
      assert a[..n - 1] == a[..n][..n - 1] && s[..n - 1] == s[..n][..n - 1];
      ObservedPrefix(a, s, b, t, n - 1);
    }
  }

  lemma {:induction false} ObservedNext(rt: Runtime, candles: seq<Candle>, c: Candle)
    ensures
      var after, n := candles + [c], |candles|;
      Observed(NamesOf(rt, after), TimesOf(after), n + 1)
      == ObserveRegime(Observed(NamesOf(rt, candles), TimesOf(candles), n), rt.classify(LastWindow(after)), c.ts)
  {
    hide ObserveRegime;
    var after, n := candles + [c], |candles|;
    forall i | 0 <= i < n
      ensures NamesOf(rt, after)[i] == NamesOf(rt, candles)[i]
    {
      assert after[..i + 1] == candles[..i + 1];
    }
    ObservedPrefix(NamesOf(rt, after), TimesOf(after), NamesOf(rt, candles), TimesOf(candles), n);
    assert after[..n + 1] == after;
  }

  lemma {:induction false} ProcessObserves(rt: Runtime, st: State, d: Delivery)
    requires rt.Valid() && Process(rt, st, d).Some?
    ensures d.symbol in st.regimes
    ensures
      var next := Process(rt, st, d).value.0;
      && next.atr.Keys == st.atr.Keys
      && next.regimes == st.regimes[d.symbol := ObserveRegime(
           st.regimes[d.symbol], rt.classify(Windowed(WindowOf(st, d.symbol), d.candle)), d.candle.ts)]
  {
  }

  lemma {:induction false} ProcessWatches(rt: Runtime, st: State, d: Delivery, ds: seq<Delivery>)
    requires rt.Valid() && Fed(rt, st, ds) && Watched(rt, st, ds) && Process(rt, st, d).Some?
    ensures Watched(rt, Process(rt, st, d).value.0, ds + [d])
  {
    hide Process, ObserveRegime, Windowed, LastWindow, NamesOf, TimesOf, CandlesOfSymbol, AtrFeed, S.StrategyFeed;
    ProcessObserves(rt, st, d);
    var next := Process(rt, st, d).value.0;
    forall s | s in next.regimes
      ensures
        var own := CandlesOfSymbol(ds + [d], s);
        next.regimes[s] == Observed(NamesOf(rt, own), TimesOf(own), |own|)
    {
      OfSymbolExtends(ds, d, s);
      if s == d.symbol {
        var own := CandlesOfSymbol(ds, s);
        assert FedSymbol(rt, st, s, own);
        WindowGrows(own, d.candle);
        ObservedNext(rt, own, d.candle);
      }
    }
  }

  // ---- the session behind it

  function BodiesOf(events: seq<RunnerEvent>): (r: seq<LogEvent>)
    ensures |r| == |events| && forall i :: 0 <= i < |r| ==> r[i] == events[i].body
  {
    seq(|events|, i requires 0 <= i < |events| => events[i].body)
  }

  /** The tick the last of some accepted deliveries becomes: what the strategy says on everything accepted, at the
      close, with the ATR of its own symbol. */
  function TickOf(rt: Runtime, ds: seq<Delivery>): Tick
    requires rt.Valid() && ds != []
  {
    var all, own, d := CandlesOf(ds), CandlesOfSymbol(ds, ds[|ds| - 1].symbol), ds[|ds| - 1];
    var signal := S.BatchSignal(rt.setup.ar, rt.strategy, Closes(all), |all| - 1, d.candle.ts);
    Tick(Decision(signal.action, Risk.Medium), d.candle.close, AtrAt(rt.setup.ar, own, ATR_PERIOD, |own| - 1),
         d.candle.ts, d.killActive)
  }

  function TicksOf(rt: Runtime, ds: seq<Delivery>): (r: seq<Tick>)
    requires rt.Valid()
    ensures |r| == |ds|
  {
    if ds == [] then [] else TicksOf(rt, ds[..|ds| - 1]) + [TickOf(rt, ds)]
  }

  lemma {:induction false} ProcessTicks(rt: Runtime, st: State, d: Delivery)
    requires rt.Valid() && Process(rt, st, d).Some?
    ensures
      var (next, event) := Process(rt, st, d).value;
      var signal := S.SignalOf(rt.strategy, next.strategy, d.candle.ts);
      SessionStep(rt.setup, st.engine,
                  Tick(Decision(signal.action, Risk.Medium), d.candle.close, event.context.atr, d.candle.ts,
                       d.killActive))
      == Some((next.engine, event.body))
  {
    hide SessionStep, S.SignalOf, S.Observe, AtrUpdate, ObserveRegime;
  }

  lemma {:induction false} ProcessIsTick(rt: Runtime, st: State, d: Delivery, ds: seq<Delivery>)
    requires rt.Valid() && Fed(rt, st, ds) && Process(rt, st, d).Some?
    ensures
      var (next, event) := Process(rt, st, d).value;
      SessionStep(rt.setup, st.engine, TickOf(rt, ds + [d])) == Some((next.engine, event.body))
  {
    hide Process, SessionStep, S.SignalOf, S.BatchSignal, S.StrategyFeed, S.Observe, AtrFeed, AtrAt, EmaAt, RsiAt;
    hide FedSymbol, CandlesOfSymbol, LastWindow;
    var (next, event) := Process(rt, st, d).value;
    ProcessTicks(rt, st, d);
    ProcessFeeds(rt, st, d, ds);
    CandlesExtend(ds, d);
    TrackersReadSeries(rt, CandlesOf(ds + [d]));
  }

  /** A runner between candles: trackers fed, regimes watched, and an engine that has run the session of its ticks. */
  predicate Driven(rt: Runtime, live: Live)
    requires rt.Valid()
  {
    && Watched(rt, live.state, live.accepted)
    && RunSession(rt.setup, TicksOf(rt, live.accepted)) == Some(Session(live.state.engine, BodiesOf(live.events)))
  }

  lemma {:induction false} AcceptDrives(rt: Runtime, live: Live, d: Delivery)
    requires rt.Valid() && Driven(rt, live) && Fed(rt, live.state, live.accepted)
    requires Handle(rt, live.state, d).Accepted?
    ensures
      var h := Handle(rt, live.state, d);
      Driven(rt, Live(h.state, live.accepted + [d], live.events + [h.event]))
  {
    hide Process, SessionStep, Fed, TickOf, Watched;
    var h, st := Handle(rt, live.state, d), Remember(live.state, d);
    RememberKeepsFed(rt, live.state, d, live.accepted);
    RememberKeepsWatched(rt, live.state, d, live.accepted);
    ProcessWatches(rt, st, d, live.accepted);
    ProcessIsTick(rt, st, d, live.accepted);
    var ds := live.accepted + [d];
    assert ds[..|ds| - 1] == live.accepted;
    var ticks := TicksOf(rt, ds);
    assert ticks[..|ticks| - 1] == TicksOf(rt, live.accepted);
    assert BodiesOf(live.events + [h.event]) == BodiesOf(live.events) + [h.event.body];
  }

  lemma {:induction false} RememberKeepsWatched(rt: Runtime, st: State, d: Delivery, ds: seq<Delivery>)
    requires Watched(rt, st, ds)
    ensures Watched(rt, Remember(st, d), ds)
  {
  }

  lemma {:induction false} NothingDriven(rt: Runtime)
    requires rt.Valid()
    ensures Driven(rt, Live(FreshState(rt), [], []))
  {
  }

  lemma {:induction false} LiveDriven(rt: Runtime, ds: seq<Delivery>)
    requires rt.Valid() && RunLive(rt, ds).Some?
    ensures Driven(rt, RunLive(rt, ds).value)
  {
    hide Driven, Handle, Followed;
    if ds == [] {
      NothingDriven(rt);
    } else {
      var front, d := ds[..|ds| - 1], ds[|ds| - 1];
      LiveStep(rt, ds);
      LiveDriven(rt, front);
      LiveFed(rt, front);
      var before := RunLive(rt, front).value;
      if Handle(rt, before.state, d).Accepted? {
        AcceptDrives(rt, before, d);
      }
    }
  }

  lemma {:induction false} LiveFed(rt: Runtime, ds: seq<Delivery>)
    requires rt.Valid() && RunLive(rt, ds).Some?
    ensures Fed(rt, RunLive(rt, ds).value.state, RunLive(rt, ds).value.accepted)
  {
    LiveFeeds(rt, ds);
  }

  /** The engine of a live session has run the paper session of the strategy's own decisions, candle by accepted candle,
      and the persisted events are its log. */
  lemma {:induction false} LiveIsSession(rt: Runtime, ds: seq<Delivery>)
    requires rt.Valid() && RunLive(rt, ds).Some?
    ensures
      var live := RunLive(rt, ds).value;
      RunSession(rt.setup, TicksOf(rt, live.accepted)) == Some(Session(live.state.engine, BodiesOf(live.events)))
  {
    LiveDriven(rt, ds);
  }

  /** The regime evidence of a live session is that of exactly the regimes its classifier named three candles in a row,
      on the accepted candles of the symbol. */
  lemma {:induction false} LiveEvidence(rt: Runtime, ds: seq<Delivery>, symbol: string)
    requires rt.Valid() && RunLive(rt, ds).Some? && symbol in rt.symbols
    ensures
      var live := RunLive(rt, ds).value;
      var own := CandlesOfSymbol(live.accepted, symbol);
      && symbol in live.state.regimes
      && Evident(NamesOf(rt, own), TimesOf(own), |own|, live.state.regimes[symbol].evidence)
      && live.state.regimes[symbol].rejected == GivenUpBefore(NamesOf(rt, own), |own| - 1)
  {
    hide Evident;
    LiveDriven(rt, ds);
    var own := CandlesOfSymbol(RunLive(rt, ds).value.accepted, symbol);
    TrackerMeans(NamesOf(rt, own), TimesOf(own), |own|);
  }
}
