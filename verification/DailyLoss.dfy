/** The daily loss limit: what the engine counts against it, and what reaching it stops. */
module DailyLoss {
  import opened Numerics
  import opened Portfolio
  import opened Risk
  import opened PaperTrading
  import opened PaperSafety

  /** Net of the trades closed on a UTC day. */
  function DayNet(ts: seq<Trade>, day: int): real {
    if ts == [] then 0.0
    else
      DayNet(ts[..|ts| - 1], day) + (if UtcDay(ts[|ts| - 1].exitTs) == day then ts[|ts| - 1].netPnl else 0.0)
  }

  predicate LimitReached(su: Setup, st: EngineState) {
    DailyLossExceeded(su.ar, st.realizedToday, su.risk.capital, su.risk)
  }

  /** A limit that allows no loss at all: it counts as reached from the start. */
  predicate NoLossAllowed(su: Setup) {
    su.risk.capital * su.risk.maxDailyLoss <= 0.0
  }

  /** The clock never runs behind a closed trade, and the daily figure is the sum of the day's trades. */
  predicate Counted(st: EngineState) {
    && (st.lastTs.None? ==> st.day.None? && st.book.trades == [] && st.realizedToday == 0.0)
    && (st.lastTs.Some? ==> st.day == Some(UtcDay(st.lastTs.value)))
    && (forall t :: t in st.book.trades ==> st.lastTs.Some? && t.exitTs <= st.lastTs.value)
    && (st.day.Some? ==> st.realizedToday == DayNet(st.book.trades, st.day.value))
  }

  /** A reached limit means a flat account. */
  predicate FlatOnceReached(su: Setup, st: EngineState) {
    && (LimitReached(su, st) ==> st.position.None?)
    && (NoLossAllowed(su) ==> st.position.None? && st.book.trades == [])
  }

  predicate Accounted(su: Setup, st: EngineState) {
    Counted(st) && FlatOnceReached(su, st)
  }

  lemma {:induction false} DayNetAppend(ts: seq<Trade>, t: Trade, day: int)
    ensures DayNet(ts + [t], day) == DayNet(ts, day) + if UtcDay(t.exitTs) == day then t.netPnl else 0.0
  {
    assert (ts + [t])[..|ts|] == ts;
  }

  lemma {:induction false} DayNetOfEarlierTrades(ts: seq<Trade>, day: int)
    requires forall t :: t in ts ==> UtcDay(t.exitTs) < day
    ensures DayNet(ts, day) == 0.0
  {
    if ts != [] {
      DayNetOfEarlierTrades(ts[..|ts| - 1], day);
    }
  }

  // ---- the day's figure, whatever the fees, the prices and the number of positions

  lemma {:induction false} ArriveCounts(st: EngineState, price: real, atr: Option<real>, ts: int)
    requires Counted(st) && (st.lastTs.None? || st.lastTs.value <= ts)
    ensures Counted(Arrive(st, price, atr, ts))
  {
    if st.day.Some? && st.day.value != UtcDay(ts) {
      DayNetOfEarlierTrades(st.book.trades, UtcDay(ts));
    }
  }

  lemma {:induction false} CloseCounts(su: Setup, st: EngineState, price: real, ts: int, reason: string)
    requires su.ar.Exact? && Counted(st) && st.position.Some? && st.lastTs == Some(ts)
    ensures Counted(Close(su, st, price, ts, reason).0)
  {
    var fill := SellFill(su, price, st.position.value.quantity, ts);
    if fill.quantity > 0.0 && st.book.position > 0.0 {
      DayNetAppend(st.book.trades, SellTrade(su.ar, st.book, fill), st.day.value);
    }
  }

  lemma {:induction false} DecideCounts(
    su: Setup, st: EngineState, killActive: bool, d: Decision, price: real, atr: Option<real>, ts: int)
    requires su.ar.Exact? && Counted(st) && st.lastTs == Some(ts)
    ensures Counted(Decide(su, st, killActive, d, price, atr, ts).0)
  {
    hide Evaluate, DayNet;
    if d.action.Sell? && st.position.Some? {
      CloseCounts(su, MarkPeak(su, st, price), price, ts, "llm_sell");
    }
  }

  lemma {:induction false} TickCounts(
    su: Setup, st: EngineState, killActive: bool, d: Decision, price: real, atr: Option<real>, ts: int)
    requires su.ar.Exact? && Counted(st)
    ensures Counted(OnPrice(su, st, killActive, d, price, atr, ts).0)
  {
    hide Decide, DayNet;
    if st.lastTs.None? || st.lastTs.value <= ts {
      ArriveCounts(st, price, atr, ts);
      var seen := Arrive(st, price, atr, ts);
      if seen.position.None? {
        DecideCounts(su, seen, killActive, d, price, atr, ts);
      } else {
        var pos := Raise(su, seen.position.value, price, seen.lastAtr);
        var held := seen.(position := Some(pos));
        match ExitReason(pos, price) {
          case Some(reason) => CloseCounts(su, held, price, ts, reason);
          case None => DecideCounts(su, held, killActive, d, price, atr, ts);
        }
      }
    }
  }

  lemma {:induction false} TickStampsDay(
    su: Setup, st: EngineState, killActive: bool, d: Decision, price: real, atr: Option<real>, ts: int)
    requires OnPrice(su, st, killActive, d, price, atr, ts).1.Done?
    ensures OnPrice(su, st, killActive, d, price, atr, ts).0.day == Some(UtcDay(ts))
  {
    hide Decide;
    TickStampsClock(su, st, killActive, d, price, atr, ts);
  }

  /** In every session that does not raise, whatever its configuration, fees and prices, the day's realized figure is
      exactly the net of the trades closed on the UTC day of its last tick. */
  lemma {:induction false} SessionCounted(su: Setup, ticks: seq<Tick>)
    requires su.ar.Exact?
    ensures RunSession(su, ticks).Some? ==> Counted(RunSession(su, ticks).value.state)
    ensures
      RunSession(su, ticks).Some? && ticks != [] ==>
        var st := RunSession(su, ticks).value.state;
        var today := UtcDay(ticks[|ticks| - 1].ts);
        st.day == Some(today) && st.realizedToday == DayNet(st.book.trades, today)
  {
    hide OnPrice, DayNet;
    if ticks != [] && RunSession(su, ticks).Some? {
      SessionCounted(su, ticks[..|ticks| - 1]);
      var st := RunSession(su, ticks[..|ticks| - 1]).value.state;
      var t := ticks[|ticks| - 1];
      TickCounts(su, st, t.killActive, t.decision, t.price, t.atr, t.ts);
      TickStampsDay(su, st, t.killActive, t.decision, t.price, t.atr, t.ts);
    }
  }

  // ---- flat once the limit is reached

  lemma {:induction false} ArriveStaysFlat(su: Setup, st: EngineState, price: real, atr: Option<real>, ts: int)
    requires SoundSetup(su) && Solvent(su, st) && Accounted(su, st)
    requires st.lastTs.None? || st.lastTs.value <= ts
    ensures Solvent(su, Arrive(st, price, atr, ts)) && FlatOnceReached(su, Arrive(st, price, atr, ts))
  {
  }

  lemma {:induction false} CloseStaysFlat(su: Setup, st: EngineState, price: real, ts: int, reason: string)
    requires SoundSetup(su) && Solvent(su, st) && FlatOnceReached(su, st) && st.position.Some? && price >= 0.0
    ensures FlatOnceReached(su, Close(su, st, price, ts, reason).0)
  {
    CloseKeeps(su, st, price, ts, reason);
  }

  lemma {:induction false} DecideStaysFlat(
    su: Setup, st: EngineState, killActive: bool, d: Decision, price: real, atr: Option<real>, ts: int)
    requires SoundSetup(su) && Solvent(su, st) && Accounted(su, st) && st.day.Some? && price >= 0.0
    ensures FlatOnceReached(su, Decide(su, st, killActive, d, price, atr, ts).0)
  {
    hide Evaluate;
    var proposal := TradeProposal(d.action, d.intensity, price, atr);
    var view := RiskView(su, st, killActive, price);
    var verdict := Evaluate(su.ar, su.risk, proposal, view);
    var marked := MarkPeak(su, st, price);
    if verdict.approved && d.action.Sell? && st.position.Some? {
      CloseStaysFlat(su, marked, price, ts, "llm_sell");
    } else if verdict.approved && d.action.Buy? {
      ApprovedBuy(su, st, killActive, d, price, atr);
      EntryWithinCap(su.risk, proposal, view);
      OpenKeeps(su, marked, verdict.size.value.quantity, price, EntryStop(su, verdict, price), verdict.takeProfit, ts);
    }
  }

  lemma {:induction false} TickStaysFlat(
    su: Setup, st: EngineState, killActive: bool, d: Decision, price: real, atr: Option<real>, ts: int)
    requires SoundSetup(su) && Solvent(su, st) && Accounted(su, st) && price >= 0.0
    requires st.lastTs.None? || st.lastTs.value <= ts
    ensures FlatOnceReached(su, OnPrice(su, st, killActive, d, price, atr, ts).0)
  {
    hide Decide;
    ArriveCounts(st, price, atr, ts);
    ArriveStaysFlat(su, st, price, atr, ts);
    var seen := Arrive(st, price, atr, ts);
    if seen.position.None? {
      DecideStaysFlat(su, seen, killActive, d, price, atr, ts);
    } else {
      var pos := Raise(su, seen.position.value, price, seen.lastAtr);
      var held := seen.(position := Some(pos));
      match ExitReason(pos, price) {
        case Some(reason) => CloseStaysFlat(su, held, price, ts, reason);
        case None => DecideStaysFlat(su, held, killActive, d, price, atr, ts);
      }
    }
  }

  /** A reached limit moreover means a flat account, in every state a session reaches. */
  lemma {:induction false} SessionAccounted(su: Setup, ticks: seq<Tick>)
    requires SoundSetup(su) && Priced(ticks)
    ensures RunSession(su, ticks).Some? ==> Accounted(su, RunSession(su, ticks).value.state)
  {
    hide OnPrice, DayNet;
    SessionCounted(su, ticks);
    if ticks == [] {
      FreshStaysFlat(su);
    } else if RunSession(su, ticks).Some? {
      var before := ticks[..|ticks| - 1];
      SessionAccounted(su, before);
      SessionStaysSolvent(su, before);
      SessionStaysSolvent(su, ticks);
      var st := RunSession(su, before).value.state;
      var t := ticks[|ticks| - 1];
      TickStaysFlat(su, st, t.killActive, t.decision, t.price, t.atr, t.ts);
    }
  }

  lemma {:induction false} FreshStaysFlat(su: Setup)
    ensures FlatOnceReached(su, Fresh(su.risk.capital))
  {
  }

  /** A tick on a day whose limit is reached fills nothing, whatever is decided, and leaves the day as it was. */
  lemma {:induction false} HaltedTick(
    su: Setup, st: EngineState, killActive: bool, d: Decision, price: real, atr: Option<real>, ts: int)
    requires SoundSetup(su) && Solvent(su, st) && Accounted(su, st)
    requires LimitReached(su, st) && st.day == Some(UtcDay(ts)) && st.lastTs.value <= ts
    ensures
      var (next, outcome) := OnPrice(su, st, killActive, d, price, atr, ts);
      && outcome.Done? && !outcome.event.filled && next.position.None?
      && next.book == st.book && next.realizedToday == st.realizedToday && next.day == st.day
      && (d.action.Buy? ==> outcome.event.riskReason in {"kill_switch", "max_drawdown", "max_daily_loss"})
  {
  }

  /** The log of a session is the log of any of its prefixes, continued. */
  lemma {:induction false} LogExtends(su: Setup, ticks: seq<Tick>, n: nat)
    requires n <= |ticks| && RunSession(su, ticks).Some?
    ensures RunSession(su, ticks[..n]).Some?
    ensures |RunSession(su, ticks).value.log| == |ticks|
    ensures RunSession(su, ticks[..n]).value.log == RunSession(su, ticks).value.log[..n]
  {
    if n < |ticks| {
      var before := ticks[..|ticks| - 1];
      assert before[..n] == ticks[..n];
      LogExtends(su, before, n);
    } else {
      assert ticks[..n] == ticks;
      if ticks != [] {
        LogExtends(su, ticks[..|ticks| - 1], |ticks| - 1);
      }
    }
  }

  function StateAfter(su: Setup, ticks: seq<Tick>, n: nat): EngineState
    requires n <= |ticks| && RunSession(su, ticks).Some?
  {
    LogExtends(su, ticks, n);
    RunSession(su, ticks[..n]).value.state
  }

  lemma {:induction false} StepOfPrefix(su: Setup, ticks: seq<Tick>, k: nat)
    requires k < |ticks| && RunSession(su, ticks[..k + 1]).Some?
    ensures RunSession(su, ticks[..k]).Some?
    ensures
      var before, after := RunSession(su, ticks[..k]).value, RunSession(su, ticks[..k + 1]).value;
      && SessionStep(su, before.state, ticks[k]).Some?
      && after.state == SessionStep(su, before.state, ticks[k]).value.0
      && after.log == before.log + [SessionStep(su, before.state, ticks[k]).value.1]
  {
    var here := ticks[..k + 1];
    assert here[..|here| - 1] == ticks[..k];
  }

  /** Line `k` of a session's log is the last line of the log after tick `k`. */
  lemma {:induction false} LogLine(su: Setup, ticks: seq<Tick>, k: nat)
    requires k < |ticks| && RunSession(su, ticks).Some?
    ensures |RunSession(su, ticks).value.log| == |ticks|
    ensures RunSession(su, ticks[..k + 1]).Some? && |RunSession(su, ticks[..k + 1]).value.log| == k + 1
    ensures RunSession(su, ticks).value.log[k] == RunSession(su, ticks[..k + 1]).value.log[k]
  {
    LogExtends(su, ticks, k + 1);
    var log := RunSession(su, ticks).value.log;
    assert log[..k + 1][k] == log[k];
  }

  lemma {:induction false} PricedPrefix(ticks: seq<Tick>, k: nat)
    requires Priced(ticks) && k <= |ticks|
    ensures Priced(ticks[..k])
  {
  }

  lemma {:induction false} StateOfSession(su: Setup, ticks: seq<Tick>, k: nat)
    requires SoundSetup(su) && Priced(ticks) && RunSession(su, ticks).Some? && 0 < k <= |ticks|
    ensures
      var st := StateAfter(su, ticks, k);
      && Solvent(su, st) && Accounted(su, st)
      && st.lastTs == Some(ticks[k - 1].ts) && st.day == Some(UtcDay(ticks[k - 1].ts))
  {
    hide RunSession, Solvent, FlatOnceReached, Priced;
    LogExtends(su, ticks, k);
    PricedPrefix(ticks, k);
    SessionStaysSolvent(su, ticks[..k]);
    SessionAccounted(su, ticks[..k]);
    SessionCounted(su, ticks[..k]);
  }

  lemma {:induction false} HaltedStep(su: Setup, st: EngineState, t: Tick)
    requires SoundSetup(su) && Solvent(su, st) && Accounted(su, st)
    requires LimitReached(su, st) && st.day == Some(UtcDay(t.ts)) && st.lastTs.value <= t.ts
    requires SessionStep(su, st, t).Some?
    ensures
      var (next, event) := SessionStep(su, st, t).value;
      !event.filled && next.position.None? && LimitReached(su, next)
  {
    HaltedTick(su, st, t.killActive, t.decision, t.price, t.atr, t.ts);
  }

  lemma {:induction false} SameDayBetween(first: int, mid: int, last: int)
    requires first <= mid <= last && UtcDay(first) == UtcDay(last)
    ensures UtcDay(mid) == UtcDay(last)
  {
  }

  /** Once the limit is reached after some tick, it is still reached before every later tick of that UTC day. */
  lemma {:induction false} StillHalted(su: Setup, ticks: seq<Tick>, n: nat, k: nat)
    requires SoundSetup(su) && Priced(ticks) && RunSession(su, ticks).Some? && 0 < n <= k < |ticks|
    requires LimitReached(su, StateAfter(su, ticks, n))
    requires UtcDay(ticks[n - 1].ts) == UtcDay(ticks[k].ts)
    ensures LimitReached(su, StateAfter(su, ticks, k))
    decreases k - n
  {
    if n < k {
      SessionStaysSolvent(su, ticks);
      SameDayBetween(ticks[n - 1].ts, ticks[n].ts, ticks[k].ts);
      HaltedTickOfSession(su, ticks, n);
      StillHalted(su, ticks, n + 1, k);
    }
  }

  lemma {:induction false} HaltedTickOfSession(su: Setup, ticks: seq<Tick>, k: nat)
    requires SoundSetup(su) && Priced(ticks) && RunSession(su, ticks).Some? && 0 < k < |ticks|
    requires LimitReached(su, StateAfter(su, ticks, k))
    requires UtcDay(ticks[k - 1].ts) == UtcDay(ticks[k].ts)
    ensures |RunSession(su, ticks).value.log| == |ticks|
    ensures !RunSession(su, ticks).value.log[k].filled
    ensures StateAfter(su, ticks, k + 1).position.None? && LimitReached(su, StateAfter(su, ticks, k + 1))
  {
    SessionStaysSolvent(su, ticks);
    LogLine(su, ticks, k);
    StepOfPrefix(su, ticks, k);
    StateOfSession(su, ticks, k);
    HaltedStep(su, StateAfter(su, ticks, k), ticks[k]);
  }

  /** Once the limit is reached after some tick, no later tick of the same UTC day fills anything. */
  lemma {:induction false} HaltedUntilTomorrow(su: Setup, ticks: seq<Tick>, n: nat, k: nat)
    requires SoundSetup(su) && Priced(ticks) && RunSession(su, ticks).Some? && 0 < n <= k < |ticks|
    requires LimitReached(su, StateAfter(su, ticks, n))
    requires UtcDay(ticks[n - 1].ts) == UtcDay(ticks[k].ts)
    ensures |RunSession(su, ticks).value.log| == |ticks|
    ensures !RunSession(su, ticks).value.log[k].filled && StateAfter(su, ticks, k + 1).position.None?
  {
    SessionStaysSolvent(su, ticks);
    StillHalted(su, ticks, n, k);
    SameDayBetween(ticks[n - 1].ts, ticks[k - 1].ts, ticks[k].ts);
    HaltedTickOfSession(su, ticks, k);
  }
}
