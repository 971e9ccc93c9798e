/** Which deliveries a live runner takes, told by their times alone, and what it keeps of one its engine refuses. */
module DeliveryMeaning {
  import opened Numerics
  import opened PaperTrading
  import opened Indicators
  import opened Runner
  import opened RunnerRecovery
  import S = Strategy
  import Risk
  import PaperSafety

  // ---- what is new

  /** Newer than everything its stream has delivered before. */
  predicate New(ds: seq<Delivery>, i: int) {
    0 <= i < |ds| && forall j :: 0 <= j < i && ds[j].Stream() == ds[i].Stream() ==> ds[j].candle.ts < ds[i].candle.ts
  }

  function News(ds: seq<Delivery>): seq<Delivery> {
    if ds == [] then []
    else News(ds[..|ds| - 1]) + if New(ds, |ds| - 1) then [ds[|ds| - 1]] else []
  }

  /** A runner remembers, for every stream it has heard of, a candle at the latest time of that stream. */
  ghost predicate Latest(st: State, ds: seq<Delivery>) {
    && (forall i :: 0 <= i < |ds| ==>
          ds[i].Stream() in st.lastCandle && ds[i].candle.ts <= st.lastCandle[ds[i].Stream()].ts)
    && (forall k :: k in st.lastCandle ==>
          exists i :: 0 <= i < |ds| && ds[i].Stream() == k && ds[i].candle.ts == st.lastCandle[k].ts)
  }

  lemma {:induction false} NewIff(st: State, ds: seq<Delivery>, d: Delivery)
    requires Latest(st, ds)
    ensures
      New(ds + [d], |ds|) <==> (d.Stream() in st.lastCandle ==> st.lastCandle[d.Stream()].ts < d.candle.ts)
  {
    var all := ds + [d];
    if d.Stream() in st.lastCandle {
      var i :| 0 <= i < |ds| && ds[i].Stream() == d.Stream() && ds[i].candle.ts == st.lastCandle[d.Stream()].ts;
      assert all[i] == ds[i];
    }
  }

  lemma {:induction false} LatestStep(st: State, next: State, ds: seq<Delivery>, d: Delivery)
    requires Latest(st, ds)
    requires
      if d.Stream() in st.lastCandle && d.candle.ts <= st.lastCandle[d.Stream()].ts
      then next.lastCandle == st.lastCandle
      else next.lastCandle == st.lastCandle[d.Stream() := d.candle]
    ensures Latest(next, ds + [d])
  {
    var all := ds + [d];
    forall k | k in next.lastCandle
      ensures exists i :: 0 <= i < |all| && all[i].Stream() == k && all[i].candle.ts == next.lastCandle[k].ts
    {
      if k in st.lastCandle {
        var i :| 0 <= i < |ds| && ds[i].Stream() == k && ds[i].candle.ts == st.lastCandle[k].ts;
        assert all[i] == ds[i];
      }
      assert all[|ds|] == d;
    }
  }

  /** A delivery is judged by its time first: only a newer one reaches the pipeline. */
  lemma {:induction false} HandleByTime(rt: Runtime, st: State, d: Delivery)
    requires rt.Valid()
    ensures
      var newer := d.Stream() in st.lastCandle ==> st.lastCandle[d.Stream()].ts < d.candle.ts;
      && (newer <==> Handle(rt, st, d).Accepted? || (Handle(rt, st, d).Refused? && !Conflicts(st, d)))
      && (Handle(rt, st, d).Accepted? ==>
            Handle(rt, st, d).state.lastCandle == st.lastCandle[d.Stream() := d.candle])
  {
    hide Process;
    if Handle(rt, st, d).Accepted? {
      ProcessNames(rt, Remember(st, d), d);
    }
  }

  /** A live session takes exactly the deliveries that are newer than all before them of their stream. */
  lemma {:induction false} AcceptedAreNew(rt: Runtime, ds: seq<Delivery>)
    requires rt.Valid() && RunLive(rt, ds).Some?
    ensures RunLive(rt, ds).value.accepted == News(ds) && Latest(RunLive(rt, ds).value.state, ds)
  {
    hide Handle, Latest, New, Conflicts;
    if ds == [] {
      NothingLatest(rt);
    } else {
      var front, d := ds[..|ds| - 1], ds[|ds| - 1];
      assert front + [d] == ds;
      LiveStep(rt, ds);
      AcceptedAreNew(rt, front);
      var before := RunLive(rt, front).value;
      HandleByTime(rt, before.state, d);
      NewIff(before.state, front, d);
      LatestStep(before.state, RunLive(rt, ds).value.state, front, d);
    }
  }

  lemma {:induction false} NothingLatest(rt: Runtime)
    ensures Latest(FreshState(rt), [])
  {
  }

  // ---- when a session raises

  /** The new deliveries, whatever their stream, do not go back in time. */
  predicate InTime(ds: seq<Delivery>) {
    forall i, j :: 0 <= i < j < |ds| && New(ds, i) && New(ds, j) ==> ds[i].candle.ts <= ds[j].candle.ts
  }

  predicate Known(rt: Runtime, ds: seq<Delivery>) {
    forall i :: 0 <= i < |ds| ==> ds[i].symbol in rt.symbols && ds[i].candle.close >= 0.0
  }

  /** The engine stands at the time of the latest new delivery. */
  predicate Standing(rt: Runtime, st: State, ds: seq<Delivery>) {
    && st.atr.Keys == rt.symbols && st.regimes.Keys == rt.symbols && PaperSafety.Solvent(rt.setup, st.engine)
    && (forall i :: 0 <= i < |ds| && New(ds, i) ==>
          st.engine.lastTs.Some? && ds[i].candle.ts <= st.engine.lastTs.value)
    && (st.engine.lastTs.Some? ==>
          exists i :: 0 <= i < |ds| && New(ds, i) && ds[i].candle.ts == st.engine.lastTs.value)
  }

  lemma {:induction false} NewStays(ds: seq<Delivery>, d: Delivery, i: int)
    requires 0 <= i < |ds|
    ensures New(ds + [d], i) <==> New(ds, i)
  {
    var all := ds + [d];
    assert forall j :: 0 <= j <= i ==> all[j] == ds[j];
  }

  /** The next new delivery is in time if and only if the engine does not stand after it. */
  lemma {:induction false} InTimeStep(rt: Runtime, st: State, ds: seq<Delivery>, d: Delivery)
    requires Standing(rt, st, ds) && InTime(ds)
    ensures
      InTime(ds + [d])
      <==> (New(ds + [d], |ds|) ==> st.engine.lastTs.None? || st.engine.lastTs.value <= d.candle.ts)
  {
    hide New;
    var all := ds + [d];
    forall i | 0 <= i < |ds|
      ensures New(all, i) <==> New(ds, i)
      ensures all[i] == ds[i]
    {
      NewStays(ds, d, i);
    }
    if st.engine.lastTs.Some? {
      var i :| 0 <= i < |ds| && New(ds, i) && ds[i].candle.ts == st.engine.lastTs.value;
      assert New(all, i) && all[i] == ds[i];
    }
  }

  lemma {:induction false} InTimeBefore(ds: seq<Delivery>, d: Delivery)
    requires InTime(ds + [d])
    ensures InTime(ds)
  {
    hide New;
    var all := ds + [d];
    forall i, j | 0 <= i < j < |ds| && New(ds, i) && New(ds, j)
      ensures ds[i].candle.ts <= ds[j].candle.ts
    {
      NewStays(ds, d, i);
      NewStays(ds, d, j);
      assert all[i] == ds[i] && all[j] == ds[j];
    }
  }

  lemma {:induction false} StepStands(su: Setup, st: EngineState, tick: Tick)
    requires PaperSafety.SafeSetup(su) && PaperSafety.Solvent(su, st) && tick.price >= 0.0
    ensures SessionStep(su, st, tick).Some? <==> st.lastTs.None? || st.lastTs.value <= tick.ts
    ensures SessionStep(su, st, tick).Some? ==>
      var next := SessionStep(su, st, tick).value.0;
      PaperSafety.Solvent(su, next) && next.lastTs == Some(tick.ts)
  {
    hide OnPrice, PaperSafety.Solvent;
    PaperSafety.TickKeepsSolvent(su, st, tick.killActive, tick.decision, tick.price, tick.atr, tick.ts);
    if st.lastTs.None? || st.lastTs.value <= tick.ts {
      PaperSafety.TickStampsClock(su, st, tick.killActive, tick.decision, tick.price, tick.atr, tick.ts);
      var next := OnPrice(su, st, tick.killActive, tick.decision, tick.price, tick.atr, tick.ts).0;
      PaperSafety.MarkingKeepsSolvent(su, next, tick.price);
    }
  }

  lemma {:induction false} ProcessStands(rt: Runtime, st: State, d: Delivery)
    requires rt.Valid() && PaperSafety.SafeSetup(rt.setup) && PaperSafety.Solvent(rt.setup, st.engine)
    requires st.atr.Keys == rt.symbols && st.regimes.Keys == rt.symbols
    requires d.symbol in rt.symbols && d.candle.close >= 0.0
    ensures Process(rt, st, d).Some? <==> st.engine.lastTs.None? || st.engine.lastTs.value <= d.candle.ts
    ensures Process(rt, st, d).Some? ==>
      var next := Process(rt, st, d).value.0;
      && next.atr.Keys == rt.symbols && next.regimes.Keys == rt.symbols
      && PaperSafety.Solvent(rt.setup, next.engine) && next.engine.lastTs == Some(d.candle.ts)
  {
    hide SessionStep, PaperSafety.Solvent, PaperSafety.SafeSetup, AtrUpdate, S.Observe, S.SignalOf, ObserveRegime;
    var strategy := S.Observe(rt.setup.ar, rt.strategy, st.strategy, d.candle.close);
    var signal := S.SignalOf(rt.strategy, strategy, d.candle.ts);
    var reading := AtrReading(st.atr[d.symbol], AtrUpdate(rt.setup.ar, ATR_PERIOD, st.atr[d.symbol], d.candle));
    StepStands(rt.setup, st.engine,
               Tick(Decision(signal.action, Risk.Medium), d.candle.close, reading, d.candle.ts, d.killActive));
  }

  lemma {:induction false} StandingStep(rt: Runtime, st: State, next: State, ds: seq<Delivery>, d: Delivery)
    requires Standing(rt, st, ds) && next.atr.Keys == rt.symbols && next.regimes.Keys == rt.symbols
    requires PaperSafety.Solvent(rt.setup, next.engine)
    requires
      if New(ds + [d], |ds|)
      then next.engine.lastTs == Some(d.candle.ts)
           && (st.engine.lastTs.Some? ==> st.engine.lastTs.value <= d.candle.ts)
      else next.engine.lastTs == st.engine.lastTs
    ensures Standing(rt, next, ds + [d])
  {
    hide New, PaperSafety.Solvent;
    var all := ds + [d];
    forall i | 0 <= i < |ds|
      ensures New(all, i) <==> New(ds, i)
      ensures all[i] == ds[i]
    {
      NewStays(ds, d, i);
    }
    assert all[|ds|] == d;
    if st.engine.lastTs.Some? {
      var i :| 0 <= i < |ds| && New(ds, i) && ds[i].candle.ts == st.engine.lastTs.value;
      assert New(all, i) && all[i] == ds[i];
    }
  }

  /** With a safe fee a live session of known symbols raises if and only if a new delivery is older than another before
      it, of whatever stream: one engine keeps one clock. Repeats and conflicts never stop it. */
  lemma {:induction false} RunsIffInTime(rt: Runtime, ds: seq<Delivery>)
    requires rt.Valid() && PaperSafety.SafeSetup(rt.setup) && Known(rt, ds)
    ensures RunLive(rt, ds).Some? <==> InTime(ds)
    ensures RunLive(rt, ds).Some? ==> Standing(rt, RunLive(rt, ds).value.state, ds)
  {
    hide Handle, Standing, InTime, New, PaperSafety.SafeSetup;
    if ds == [] {
      NothingStanding(rt);
    } else {
      var front, d := ds[..|ds| - 1], ds[|ds| - 1];
      assert front + [d] == ds;
      RunsIffInTime(rt, front);
      if RunLive(rt, front).Some? {
        DeliveryStands(rt, front, d);
      } else if InTime(ds) {
        InTimeBefore(front, d);
      }
    }
  }

  lemma {:induction false} NothingStanding(rt: Runtime)
    requires PaperSafety.SafeSetup(rt.setup)
    ensures Standing(rt, FreshState(rt), []) && InTime([])
  {
    PaperSafety.FreshSolvent(rt.setup);
  }

  lemma {:induction false} DeliveryStands(rt: Runtime, front: seq<Delivery>, d: Delivery)
    requires rt.Valid() && PaperSafety.SafeSetup(rt.setup) && d.symbol in rt.symbols && d.candle.close >= 0.0
    requires RunLive(rt, front).Some? && Standing(rt, RunLive(rt, front).value.state, front) && InTime(front)
    ensures
      var st := RunLive(rt, front).value.state;
      var h, ds := Handle(rt, st, d), front + [d];
      && (InTime(ds) <==> h.Accepted? || h.Ignored? || Conflicts(st, d))
      && (InTime(ds) ==> Standing(rt, if h.Accepted? then h.state else st, ds))
  {
    hide Process, InTime, New, PaperSafety.SafeSetup, PaperSafety.Solvent, Latest, RunLive;
    var st, ds := RunLive(rt, front).value.state, front + [d];
    AcceptedAreNew(rt, front);
    NewIff(st, front, d);
    HandleByTime(rt, st, d);
    InTimeStep(rt, st, front, d);
    ProcessStands(rt, Remember(st, d), d);
    var h := Handle(rt, st, d);
    if InTime(ds) {
      StandingStep(rt, st, if h.Accepted? then h.state else st, front, d);
    }
  }

  // ---- what a refusal leaves

  /** A conflict leaves everything as it was. A raise of the pipeline loses nothing but the work of the engine: window,
      regime, strategy and ATR stand where they would stand had the engine, in whatever state, taken the candle. */
  lemma {:induction false} RefusalKeeps(rt: Runtime, st: State, d: Delivery, engine: EngineState)
    requires rt.Valid() && Handle(rt, st, d).Refused?
    ensures
      var after, other := AfterRefusal(rt, st, d), Handle(rt, st.(engine := engine), d);
      if d.Stream() in st.lastCandle && d.candle.ts <= st.lastCandle[d.Stream()].ts then after == st
      else
        && after.lastCandle == st.lastCandle[d.Stream() := d.candle]
        && (other.Accepted? ==> after.(engine := engine) == other.state.(engine := engine))
        && (d.symbol !in st.regimes ==>
              after == st.(windows := after.windows, lastCandle := after.lastCandle)
              && after.windows == st.windows[d.symbol := Windowed(WindowOf(st, d.symbol), d.candle)])
  {
    hide SessionStep, OnPrice, AtrUpdate, S.Observe, S.SignalOf, ObserveRegime, Windowed;
  }

  /** What the engine keeps of a tick it raised on: nothing of one out of order, and of a buy it cannot pay for the
      clock but neither money nor position. */
  lemma {:induction false} RaisedEngine(
    su: Setup, st: EngineState, killActive: bool, d: PaperTrading.Decision, price: real, atr: Option<real>, ts: int)
    requires !OnPrice(su, st, killActive, d, price, atr, ts).1.Done?
    ensures
      var (next, outcome) := OnPrice(su, st, killActive, d, price, atr, ts);
      if outcome.OutOfOrder? then next == st && st.lastTs.Some? && ts < st.lastTs.value
      else
        && next.book == st.book && next.lastTs == Some(ts) && next.day == Some(UtcDay(ts))
        && next.position.None? == st.position.None? && d.action.Buy?
        && next.ordersRejected == st.ordersRejected
  {
    hide Risk.Evaluate, BuyFill, SellFill, EntryStop;
  }
}
