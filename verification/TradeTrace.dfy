/** Reading a session's log back: round trips rebuilt from the trace, and the walk-forward windows they are cut by. */
module TradeTrace {
  import opened Numerics
  import opened Portfolio
  import opened PaperTrading
  import opened PaperSafety

  datatype Scan = Scan(openLot: Option<LogEvent>, trades: seq<Trade>)

  function RoundTrip(buy: LogEvent, sell: LogEvent): Trade {
    var quantity := Min(buy.quantity.GetOr(0.0), sell.quantity.GetOr(0.0));
    var gross := (sell.execPrice.GetOr(0.0) - buy.execPrice.GetOr(0.0)) * quantity;
    var fees := buy.fee + sell.fee;
    Trade(buy.ts, sell.ts, buy.execPrice.GetOr(0.0), sell.execPrice.GetOr(0.0), quantity, gross, fees,
          buy.slippageCost + sell.slippageCost, gross - fees)
  }

  function ScanStep(s: Scan, e: LogEvent): Scan {
    if e.filled && e.action.Buy? then Scan(Some(e), s.trades)
    else if e.filled && e.action.Sell? && s.openLot.Some? then
      Scan(None, s.trades + [RoundTrip(s.openLot.value, e)])
    else s
  }

  function ScanLog(events: seq<LogEvent>): Scan {
    if events == [] then Scan(None, [])
    else ScanStep(ScanLog(events[..|events| - 1]), events[|events| - 1])
  }

  method TradesFromTrace(events: seq<LogEvent>) returns (trades: seq<Trade>)
    ensures trades == ScanLog(events).trades
  {
    trades := [];
    var openLot: Option<LogEvent> := None;
    for i := 0 to |events|
      invariant ScanLog(events[..i]) == Scan(openLot, trades)
    {
      var event := events[i];
      assert events[..i + 1][..i] == events[..i];
      if event.filled && event.action.Buy? {
        openLot := Some(event);
      } else if event.filled && event.action.Sell? && openLot.Some? {
        var buy := openLot.value;
        openLot := None;
        trades := trades + [RoundTrip(buy, event)];
      }
    }
    assert events[..|events|] == events;
  }

  /** The reader's open lot is the engine's open position, down to the fees the account has pending. */
  predicate SameLot(s: Scan, st: EngineState) {
    && s.trades == st.book.trades
    && (s.openLot.Some? <==> st.position.Some?)
    && (s.openLot.Some? ==>
          var lot := s.openLot.value;
          && lot.ts == st.position.value.entryTs
          && lot.execPrice == Some(st.position.value.entryPrice)
          && lot.quantity == Some(st.position.value.quantity)
          && lot.fee == st.book.entryFees
          && lot.slippageCost == st.book.entrySlippage)
  }

  lemma {:induction false} CloseReadsBack(su: Setup, s: Scan, st: EngineState, t: Tick, reason: string, equity: real)
    requires SoundSetup(su) && Solvent(su, st) && SameLot(s, st) && st.position.Some?
    ensures
      var (next, event) := Close(su, st, t.price, t.ts, reason);
      SameLot(ScanStep(s, Logged(t, event, equity)), next)
  {
    var fill := SellFill(su, t.price, st.position.value.quantity, t.ts);
    SellAll(st.book, fill);
    var (next, event) := Close(su, st, t.price, t.ts, reason);
    var closed := RoundTrip(s.openLot.value, Logged(t, event, equity));
    var b := st.book;
    var trade := ApplySell(Exact, b, fill).trades[|b.trades|];
    assert closed.quantity == fill.quantity == trade.quantity;
    assert closed.entryPrice == trade.entryPrice && closed.exitPrice == trade.exitPrice;
    assert closed.grossPnl == trade.grossPnl;
    assert closed.fees == trade.fees && closed.slippage == trade.slippage;
    assert closed.netPnl == trade.netPnl;
    assert closed.entryTs == trade.entryTs && closed.exitTs == trade.exitTs;
    assert closed == trade;
    assert next.book.trades == st.book.trades + [closed];
  }

  lemma {:induction false} OpenReadsBack(
    su: Setup, s: Scan, st: EngineState, t: Tick, sized: real, stop: real, target: Option<real>, equity: real)
    requires SoundSetup(su) && Solvent(su, st) && SameLot(s, st) && st.position.None?
    requires sized > 0.0 && t.price > 0.0 && st.book.cash > 0.0
    ensures
      var (next, outcome) := Open(su, st, sized, t.price, stop, target, t.ts);
      outcome.Done? ==> SameLot(ScanStep(s, Logged(t, outcome.event, equity)), next)
  {
    BoughtFill(su, st.book.cash, sized, t.price, t.ts);
  }

  lemma {:induction false} DecideReadsBack(su: Setup, s: Scan, st: EngineState, t: Tick, equity: real)
    requires SoundSetup(su) && Solvent(su, st) && SameLot(s, st) && t.price >= 0.0
    ensures
      var (next, outcome) := Decide(su, st, t.killActive, t.decision, t.price, t.atr, t.ts);
      outcome.Done? ==> SameLot(ScanStep(s, Logged(t, outcome.event, equity)), next)
  {
    var d := t.decision;
    var proposal := Risk.TradeProposal(d.action, d.intensity, t.price, t.atr);
    var view := RiskView(su, st, t.killActive, t.price);
    var verdict := Risk.Evaluate(su.ar, su.risk, proposal, view);
    var marked := MarkPeak(su, st, t.price);
    if verdict.approved && d.action.Sell? && st.position.Some? {
      CloseReadsBack(su, s, marked, t, "llm_sell", equity);
    } else if verdict.approved && d.action.Buy? {
      ApprovedBuy(su, st, t.killActive, d, t.price, t.atr);
      Risk.EntryWithinCap(su.risk, proposal, view);
      OpenReadsBack(su, s, marked, t, verdict.size.value.quantity, EntryStop(su, verdict, t.price),
                    verdict.takeProfit, equity);
    }
  }

  lemma {:induction false} TickReadsBack(su: Setup, s: Scan, st: EngineState, t: Tick)
    requires SoundSetup(su) && Solvent(su, st) && SameLot(s, st) && t.price >= 0.0
    requires SessionStep(su, st, t).Some?
    ensures
      var (next, event) := SessionStep(su, st, t).value;
      SameLot(ScanStep(s, event), next)
  {
    var (next, outcome) := OnPrice(su, st, t.killActive, t.decision, t.price, t.atr, t.ts);
    var equity := Equity(su.ar, next.book, t.price);
    var seen := Arrive(st, t.price, t.atr, t.ts);
    if seen.position.None? {
      DecideReadsBack(su, s, seen, t, equity);
    } else {
      var pos := Raise(su, seen.position.value, t.price, seen.lastAtr);
      var held := seen.(position := Some(pos));
      match ExitReason(pos, t.price) {
        case Some(reason) => CloseReadsBack(su, s, held, t, reason, equity);
        case None => DecideReadsBack(su, s, held, t, equity);
      }
    }
  }

  lemma {:induction false} SessionReadsBack(su: Setup, ticks: seq<Tick>)
    requires SoundSetup(su) && Priced(ticks)
    ensures RunSession(su, ticks).Some? ==>
      SameLot(ScanLog(RunSession(su, ticks).value.log), RunSession(su, ticks).value.state)
  {
    if ticks != [] && RunSession(su, ticks).Some? {
      var before := ticks[..|ticks| - 1];
      SessionReadsBack(su, before);
      SessionStaysSolvent(su, before);
      var session := RunSession(su, before).value;
      TickReadsBack(su, ScanLog(session.log), session.state, ticks[|ticks| - 1]);
      var log := RunSession(su, ticks).value.log;
      assert log[..|log| - 1] == session.log;
    }
  }

  /** For every session that does not raise, the round trips rebuilt from the log are the account's trades, field by
      field. */
  lemma {:induction false} TraceEqualsTrades(su: Setup, ticks: seq<Tick>)
    requires SoundSetup(su) && Priced(ticks)
    ensures RunSession(su, ticks).Some? ==>
      ScanLog(RunSession(su, ticks).value.log).trades == RunSession(su, ticks).value.state.book.trades
  {
    SessionReadsBack(su, ticks);
  }

  // ---- walk-forward windows

  const WALK_FORWARD_START: int := 62208
  const WALK_FORWARD_END: int := 88128

  datatype WindowSpec = WindowSpec(index: nat, rowStart: int, rowEnd: int)

  /** Contiguous windows that cover the walk-forward rows once, with sizes that differ by at most one row;
      `None` when the number of windows is out of range and the source raises. */
  method WalkForwardWindows(count: int) returns (windows: Option<seq<WindowSpec>>)
    ensures windows.Some? <==> 1 <= count <= WALK_FORWARD_END - WALK_FORWARD_START
    ensures windows.Some? ==>
      var ws := windows.value;
      && |ws| == count
      && ws[0].rowStart == WALK_FORWARD_START && ws[count - 1].rowEnd == WALK_FORWARD_END
      && (forall i :: 0 < i < count ==> ws[i].rowStart == ws[i - 1].rowEnd)
      && (forall i :: 0 <= i < count ==> ws[i].index == i && ws[i].rowStart < ws[i].rowEnd)
      && (forall i, j :: 0 <= i < j < count ==>
            0 <= (ws[i].rowEnd - ws[i].rowStart) - (ws[j].rowEnd - ws[j].rowStart) <= 1)
  {
    var total := WALK_FORWARD_END - WALK_FORWARD_START;
    if count < 1 || count > total {
      return None;
    }
    var base, extra := total / count, total % count;
    QuotientAndRest(total, count);
    var specs: seq<WindowSpec> := [];
    var start := WALK_FORWARD_START;
    ghost var covered := 0;
    for index := 0 to count
      invariant |specs| == index && covered == base * index
      invariant start == WALK_FORWARD_START + covered + (if index < extra then index else extra)
      invariant index > 0 ==> specs[0].rowStart == WALK_FORWARD_START && specs[index - 1].rowEnd == start
      invariant forall i :: 0 < i < index ==> specs[i].rowStart == specs[i - 1].rowEnd
      invariant forall i :: 0 <= i < index ==> specs[i].index == i
      invariant forall i :: 0 <= i < index ==>
        specs[i].rowEnd - specs[i].rowStart == base + if i < extra then 1 else 0
    {
      var size := base + if index < extra then 1 else 0;
      specs := specs + [WindowSpec(index, start, start + size)];
      start := start + size;
      OneMore(base, index);
      covered := covered + base;
    }
    return Some(specs);
  }

  lemma {:induction false} QuotientAndRest(total: int, count: int)
    requires 1 <= count <= total
    ensures (total / count) * count + total % count == total && total / count >= 1 && 0 <= total % count < count
  {
  }

  lemma {:induction false} OneMore(base: int, index: int)
    ensures base * (index + 1) == base * index + base
  {
  }
}
