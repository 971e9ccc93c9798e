/** What recovery accepts as the same event, field by field, and what it does with any other. */
module RecoveryDivergence {
  import opened Numerics
  import opened PaperTrading
  import opened Runner
  import opened RunnerRecovery

  function Distance(x: real, y: real): real {
    if x < y then y - x else x - y
  }

  /** Within a billionth, absolutely or of either number. */
  predicate Near(x: real, y: real) {
    var gap := Distance(x, y);
    gap <= 0.000000001 || gap <= 0.000000001 * Distance(x, 0.0) || gap <= 0.000000001 * Distance(y, 0.0)
  }

  predicate NearIfAny(x: Option<real>, y: Option<real>) {
    match (x, y)
    case (None, None) => true
    case (Some(a), Some(b)) => Near(a, b)
    case _ => false
  }

  /** A recomputed event reproduces a persisted one when what was decided, done and given as reason is the same, and
      every number is there in both or neither and near. */
  predicate Reproduces(event: RunnerEvent, persisted: RunnerEvent) {
    var e, p, c, k := event.body, persisted.body, event.context, persisted.context;
    && (e.action, e.filled, e.riskReason, e.exitReason, e.killActive)
       == (p.action, p.filled, p.riskReason, p.exitReason, p.killActive)
    && (c.signalReason, c.regime) == (k.signalReason, k.regime)
    && NearIfAny(e.execPrice, p.execPrice) && NearIfAny(e.quantity, p.quantity)
    && Near(e.fee, p.fee) && Near(e.slippageCost, p.slippageCost) && Near(e.equity, p.equity)
    && NearIfAny(c.atr, k.atr) && NearIfAny(c.rsi, k.rsi)
    && NearIfAny(c.emaFast, k.emaFast) && NearIfAny(c.emaSlow, k.emaSlow)
  }

  lemma {:induction false} CloseIsNear(x: real, y: real)
    ensures FloatsClose(Some(x), Some(y), TOLERANCE) <==> Near(x, y)
  {
    var m := Max(1.0, Max(Abs(x), Abs(y)));
    Scaled(1.0, m);
    Scaled(Abs(x), m);
    Scaled(Abs(y), m);
  }

  lemma {:induction false} Scaled(a: real, b: real)
    requires a <= b
    ensures TOLERANCE * a <= TOLERANCE * b
  {
  }

  lemma {:induction false} CloseIsNearIfAny(x: Option<real>, y: Option<real>)
    ensures FloatsClose(x, y, TOLERANCE) <==> NearIfAny(x, y)
  {
    if x.Some? && y.Some? {
      CloseIsNear(x.value, y.value);
    }
  }

  lemma {:induction false} EquivalentIffReproduces(a: RunnerEvent, b: RunnerEvent)
    ensures EventsEquivalent(a, b) <==> Reproduces(a, b)
  {
    hide FloatsClose, NearIfAny;
    CloseIsNearIfAny(a.body.execPrice, b.body.execPrice);
    CloseIsNearIfAny(a.body.quantity, b.body.quantity);
    CloseIsNear(a.body.fee, b.body.fee);
    CloseIsNear(a.body.slippageCost, b.body.slippageCost);
    CloseIsNear(a.body.equity, b.body.equity);
    CloseIsNearIfAny(a.context.atr, b.context.atr);
    CloseIsNearIfAny(a.context.emaFast, b.context.emaFast);
    CloseIsNearIfAny(a.context.emaSlow, b.context.emaSlow);
    CloseIsNearIfAny(a.context.rsi, b.context.rsi);
  }

  /** One candle of a recovery that has come as far as it: it stops with an error of the pipeline, a gap if nothing was
      persisted for the candle, a divergence if what was persisted is not what the candle gives, and goes on otherwise,
      remembering the candle. */
  lemma {:induction false} NextOfRecovery(
    rt: Runtime, candles: seq<Delivery>, persisted: Persisted, kill: bool, i: nat, st: State)
    requires rt.Valid() && i < |candles| && ReplayTo(rt, candles, persisted, kill, i) == Recovered(st)
    ensures
      var d := candles[i].(killActive := kill);
      var key := (d.symbol, d.timeframe, d.candle.ts);
      var next := ReplayTo(rt, candles, persisted, kill, i + 1);
      match Process(rt, st, d)
      case None => next == Raised(i)
      case Some((after, event)) =>
        if key !in persisted then next == Gap(i)
        else if !Reproduces(event, persisted[key]) then next == Divergence(i)
        else next == Recovered(after.(lastCandle := after.lastCandle[(d.symbol, d.timeframe) := d.candle]))
  {
    hide EventsEquivalent, Reproduces, Process;
    var d := candles[i].(killActive := kill);
    NextCandle(rt, candles, persisted, kill, i, st);
    match Process(rt, st, d) {
      case None =>
      case Some((after, event)) =>
        if d.Key() in persisted {
          EquivalentIffReproduces(event, persisted[d.Key()]);
        }
    }
  }

  /** Recovery reads nothing of what was persisted but the events of its candles. */
  lemma {:induction false} OnlyItsKeys(
    rt: Runtime, candles: seq<Delivery>, p: Persisted, q: Persisted, kill: bool, n: nat)
    requires rt.Valid() && n <= |candles|
    requires forall j :: 0 <= j < n ==>
      candles[j].Key() in p && candles[j].Key() in q && p[candles[j].Key()] == q[candles[j].Key()]
    ensures ReplayTo(rt, candles, p, kill, n) == ReplayTo(rt, candles, q, kill, n)
  {
    hide Process, EventsEquivalent;
    if n > 0 {
      OnlyItsKeys(rt, candles, p, q, kill, n - 1);
    }
  }

  lemma {:induction false} ProcessedAgain(rt: Runtime, ds: seq<Delivery>, i: nat)
    requires rt.Valid() && RunLive(rt, ds).Some? && RunLive(rt, ds).value.accepted == ds && i < |ds|
    ensures |RunLive(rt, ds).value.events| == |ds| && RunLive(rt, ds[..i]).Some?
    ensures
      var st := RunLive(rt, ds[..i]).value.state;
      Process(rt, st, ds[i]).Some? && Process(rt, st, ds[i]).value.1 == RunLive(rt, ds).value.events[i]
  {
    hide Process;
    var here, events := ds[..i + 1], RunLive(rt, ds).value.events;
    LivePrefix(rt, ds, i);
    LivePrefix(rt, ds, i + 1);
    LiveStep(rt, here);
    assert here[..|here| - 1] == ds[..i] && here[|here| - 1] == ds[i];
    assert events[i] == events[..i + 1][i];
    ProcessCommutes(rt, RunLive(rt, ds[..i]).value.state, ds[i]);
  }

  lemma {:induction false} RecoversUpTo(
    rt: Runtime, ds: seq<Delivery>, persisted: Persisted, kill: bool, i: nat)
    requires rt.Valid() && RunLive(rt, ds).Some? && RunLive(rt, ds).value.accepted == ds && i <= |ds|
    requires SwitchStood(ds[..i], kill) && |RunLive(rt, ds).value.events| == |ds|
    requires forall j :: 0 <= j < i ==>
      ds[j].Key() in persisted && persisted[ds[j].Key()] == RunLive(rt, ds).value.events[j]
    ensures RunLive(rt, ds[..i]).Some?
    ensures ReplayTo(rt, ds, persisted, kill, i) == Recovered(RunLive(rt, ds[..i]).value.state)
  {
    hide Process, RunLive, ReplayTo, PersistedOf;
    var events := RunLive(rt, ds).value.events;
    LiveKeys(rt, ds);
    forall j | 0 <= j < i
      ensures ds[j].Key() in PersistedOf(events) && PersistedOf(events)[ds[j].Key()] == persisted[ds[j].Key()]
    {
      PersistedFindsEvent(events, ds, j);
    }
    OnlyItsKeys(rt, ds, persisted, PersistedOf(events), kill, i);
    RecoveryOfPrefix(rt, ds, kill, i);
  }

  /** Evidence that was altered stops the recovery where it was altered: with every earlier event as the live session
      left it, and one that the session's own event does not reproduce in some field, the recovery of the whole session
      ends in a divergence at that candle. */
  lemma {:induction false} AlteredEvidenceDiverges(
    rt: Runtime, ds: seq<Delivery>, persisted: Persisted, kill: bool, i: nat)
    requires rt.Valid() && RunLive(rt, ds).Some? && RunLive(rt, ds).value.accepted == ds && i < |ds|
    requires SwitchStood(ds[..i + 1], kill) && |RunLive(rt, ds).value.events| == |ds|
    requires
      var events := RunLive(rt, ds).value.events;
      && (forall j :: 0 <= j < i ==> ds[j].Key() in persisted && persisted[ds[j].Key()] == events[j])
      && ds[i].Key() in persisted && !Reproduces(events[i], persisted[ds[i].Key()])
    ensures ReplayTo(rt, ds, persisted, kill, |ds|) == Divergence(i)
  {
    hide Process, Reproduces, RunLive, ReplayTo;
    SwitchOneMore(ds, kill, i);
    assert ds[i].killActive == kill;
    RecoversUpTo(rt, ds, persisted, kill, i);
    ProcessedAgain(rt, ds, i);
    assert ds[i].(killActive := kill) == ds[i];
    NextOfRecovery(rt, ds, persisted, kill, i, RunLive(rt, ds[..i]).value.state);
    FailureStays(rt, ds, persisted, kill, i + 1, |ds|);
  }
}
