/** The accounting mirror: refolding a session's log, in full and from a checkpoint, under any arithmetic. */
module Reconciliation {
  import opened Numerics
  import opened Portfolio
  import opened PaperTrading

  datatype Mirror = Mirror(
    cash: real,
    position: real,
    avgEntry: Option<real>,
    entryFees: real,
    entrySlippage: real,
    realizedPnl: real,
    totalFees: real,
    totalSlippage: real)

  function MirrorStart(cash: real): Mirror {
    Mirror(cash, 0.0, None, 0.0, 0.0, 0.0, 0.0, 0.0)
  }

  // ---- the mirror's own arithmetic

  function MirrorBuy(ar: Arith, m: Mirror, exec: real, quantity: real, fee: real, slippage: real): Mirror {
    if quantity <= 0.0 then m
    else
      var average :=
        if m.position == 0.0 then exec
        else ar.Div(ar.Add(ar.Mul(m.avgEntry.GetOr(0.0), m.position), ar.Mul(exec, quantity)),
                    ar.Add(m.position, quantity));
      m.(cash := ar.Sub(m.cash, ar.Add(ar.Mul(quantity, exec), fee)),
         position := ar.Add(m.position, quantity),
         avgEntry := Some(average),
         entryFees := ar.Add(m.entryFees, fee),
         entrySlippage := ar.Add(m.entrySlippage, slippage),
         totalFees := ar.Add(m.totalFees, fee),
         totalSlippage := ar.Add(m.totalSlippage, slippage))
  }

  function MirrorSell(ar: Arith, m: Mirror, exec: real, quantity: real, fee: real, slippage: real): Mirror {
    if quantity <= 0.0 || m.position <= 0.0 then m
    else
      var sold := Min(quantity, m.position);
      var fraction, scale := ar.Div(sold, m.position), ar.Div(sold, quantity);
      var exitFee := ar.Mul(fee, scale);
      var gross := ar.Mul(ar.Sub(exec, m.avgEntry.GetOr(0.0)), sold);
      var net := ar.Sub(gross, ar.Add(ar.Mul(m.entryFees, fraction), exitFee));
      var left := ar.Sub(m.position, sold);
      m.(cash := ar.Add(m.cash, ar.Sub(ar.Mul(ar.Mul(quantity, exec), scale), exitFee)),
         position := if left <= DUST then 0.0 else left,
         avgEntry := if left <= DUST then None else m.avgEntry,
         entryFees := ar.Sub(m.entryFees, ar.Mul(m.entryFees, fraction)),
         entrySlippage := ar.Sub(m.entrySlippage, ar.Mul(m.entrySlippage, fraction)),
         realizedPnl := ar.Add(m.realizedPnl, net),
         totalFees := ar.Add(m.totalFees, exitFee),
         totalSlippage := ar.Add(m.totalSlippage, ar.Mul(slippage, scale)))
  }

  function MirrorStep(ar: Arith, m: Mirror, e: LogEvent): Mirror {
    if !e.filled || e.execPrice.None? || e.quantity.None? then m
    else
      match e.action
      case Buy => MirrorBuy(ar, m, e.execPrice.value, e.quantity.value, e.fee, e.slippageCost)
      case Sell => MirrorSell(ar, m, e.execPrice.value, e.quantity.value, e.fee, e.slippageCost)
      case Hold => m
  }

  function Advance(ar: Arith, m: Mirror, events: seq<LogEvent>): Mirror {
    if events == [] then m
    else MirrorStep(ar, Advance(ar, m, events[..|events| - 1]), events[|events| - 1])
  }

  method AdvanceOver(ar: Arith, start: Mirror, events: seq<LogEvent>) returns (m: Mirror)
    ensures m == Advance(ar, start, events)
  {
    m := start;
    for i := 0 to |events|
      invariant m == Advance(ar, start, events[..i])
    {
      var e := events[i];
      assert events[..i + 1][..i] == events[..i];
      if e.filled && e.execPrice.Some? && e.quantity.Some? {
        if e.action == Action.Buy {
          m := MirrorBuy(ar, m, e.execPrice.value, e.quantity.value, e.fee, e.slippageCost);
        } else if e.action == Action.Sell {
          m := MirrorSell(ar, m, e.execPrice.value, e.quantity.value, e.fee, e.slippageCost);
        }
      }
    }
    assert events[..|events|] == events;
  }

  lemma {:induction false} AdvanceConcat(ar: Arith, m: Mirror, first: seq<LogEvent>, second: seq<LogEvent>)
    ensures Advance(ar, m, first + second) == Advance(ar, Advance(ar, m, first), second)
  {
    if second == [] {
      assert first + second == first;
    } else {
      var rest := second[..|second| - 1];
      assert (first + second)[..|first + second| - 1] == first + rest;
      AdvanceConcat(ar, m, first, rest);
    }
  }

  // ---- the mirror against the engine

  /** The part of the engine's account the mirror rebuilds. */
  function OfBook(b: Book): Mirror {
    Mirror(b.cash, b.position, b.avgEntry, b.entryFees, b.entrySlippage, b.realizedPnl, b.totalFees, b.totalSlippage)
  }

  lemma {:induction false} BuyMirrored(ar: Arith, b: Book, f: Fill)
    requires f.notional == ar.Mul(f.quantity, f.execPrice) && ApplyBuy(ar, b, f).Some?
    ensures MirrorBuy(ar, OfBook(b), f.execPrice, f.quantity, f.fee, f.slippageCost) == OfBook(ApplyBuy(ar, b, f).value)
  {
  }

  lemma {:induction false} SellMirrored(ar: Arith, b: Book, f: Fill)
    requires f.notional == ar.Mul(f.quantity, f.execPrice)
    ensures MirrorSell(ar, OfBook(b), f.execPrice, f.quantity, f.fee, f.slippageCost) == OfBook(ApplySell(ar, b, f))
  {
  }

  lemma {:induction false} CloseMirrored(su: Setup, st: EngineState, t: Tick, reason: string, equity: real)
    requires st.position.Some?
    ensures
      var (next, event) := Close(su, st, t.price, t.ts, reason);
      MirrorStep(su.ar, OfBook(st.book), Logged(t, event, equity)) == OfBook(next.book)
  {
    SellMirrored(su.ar, st.book, SellFill(su, t.price, st.position.value.quantity, t.ts));
  }

  lemma {:induction false} OpenMirrored(
    su: Setup, st: EngineState, t: Tick, sized: real, stop: real, target: Option<real>, equity: real)
    ensures
      var (next, outcome) := Open(su, st, sized, t.price, stop, target, t.ts);
      outcome.Done? ==> MirrorStep(su.ar, OfBook(st.book), Logged(t, outcome.event, equity)) == OfBook(next.book)
  {
    var f := BuyFill(su, st.book.cash, sized, t.price, t.ts);
    if ApplyBuy(su.ar, st.book, f).Some? {
      BuyMirrored(su.ar, st.book, f);
    }
  }

  lemma {:induction false} DecideMirrored(su: Setup, st: EngineState, t: Tick, equity: real)
    ensures
      var (next, outcome) := Decide(su, st, t.killActive, t.decision, t.price, t.atr, t.ts);
      outcome.Done? ==> MirrorStep(su.ar, OfBook(st.book), Logged(t, outcome.event, equity)) == OfBook(next.book)
  {
    var d := t.decision;
    var verdict := Risk.Evaluate(su.ar, su.risk, Risk.TradeProposal(d.action, d.intensity, t.price, t.atr),
                                 RiskView(su, st, t.killActive, t.price));
    var marked := MarkPeak(su, st, t.price);
    if verdict.approved && d.action.Sell? && st.position.Some? {
      CloseMirrored(su, marked, t, "llm_sell", equity);
    } else if verdict.approved && d.action.Buy? && verdict.size.Some? {
      OpenMirrored(su, marked, t, verdict.size.value.quantity, EntryStop(su, verdict, t.price), verdict.takeProfit,
                   equity);
    }
  }

  /** One mirror step over the logged event does to the mirror what the tick did to the account, bit for bit. */
  lemma {:induction false} TickMirrored(su: Setup, st: EngineState, t: Tick)
    requires SessionStep(su, st, t).Some?
    ensures
      var (next, event) := SessionStep(su, st, t).value;
      && MirrorStep(su.ar, OfBook(st.book), event) == OfBook(next.book)
      && event.ts == t.ts && event.equity == Equity(su.ar, next.book, t.price)
  {
    var (next, outcome) := OnPrice(su, st, t.killActive, t.decision, t.price, t.atr, t.ts);
    var equity := Equity(su.ar, next.book, t.price);
    var seen := Arrive(st, t.price, t.atr, t.ts);
    if seen.position.None? {
      DecideMirrored(su, seen, t, equity);
    } else {
      var pos := Raise(su, seen.position.value, t.price, seen.lastAtr);
      var held := seen.(position := Some(pos));
      match ExitReason(pos, t.price) {
        case Some(reason) => CloseMirrored(su, held, t, reason, equity);
        case None => DecideMirrored(su, held, t, equity);
      }
    }
  }

  lemma {:induction false} StepOfSession(su: Setup, ticks: seq<Tick>)
    requires ticks != [] && RunSession(su, ticks).Some?
    ensures RunSession(su, ticks[..|ticks| - 1]).Some?
    ensures
      var before, after := RunSession(su, ticks[..|ticks| - 1]).value, RunSession(su, ticks).value;
      var step := SessionStep(su, before.state, ticks[|ticks| - 1]);
      step.Some? && after == Session(step.value.0, before.log + [step.value.1])
  {
  }

  /** Under any arithmetic, refolding the log of any session gives the engine's account bit for bit. */
  lemma {:induction false} SessionMirrored(su: Setup, ticks: seq<Tick>)
    ensures RunSession(su, ticks).Some? ==>
      var session := RunSession(su, ticks).value;
      Advance(su.ar, MirrorStart(su.risk.capital), session.log) == OfBook(session.state.book)
  {
    if ticks != [] && RunSession(su, ticks).Some? {
      var before := ticks[..|ticks| - 1];
      StepOfSession(su, ticks);
      SessionMirrored(su, before);
      var session := RunSession(su, before).value;
      TickMirrored(su, session.state, ticks[|ticks| - 1]);
      var log := RunSession(su, ticks).value.log;
      assert log[..|log| - 1] == session.log;
    }
  }

  /** The log has one line per tick, at its time, and the last one carries the account marked at the last price. */
  lemma {:induction false} SessionLogged(su: Setup, ticks: seq<Tick>)
    requires RunSession(su, ticks).Some?
    ensures
      var session := RunSession(su, ticks).value;
      && |session.log| == |ticks|
      && (forall i :: 0 <= i < |ticks| ==> session.log[i].ts == ticks[i].ts)
      && (ticks != [] ==>
            session.log[|ticks| - 1].equity == Equity(su.ar, session.state.book, ticks[|ticks| - 1].price))
  {
    hide SessionStep;
    if ticks != [] {
      StepOfSession(su, ticks);
      SessionLogged(su, ticks[..|ticks| - 1]);
      TickMirrored(su, RunSession(su, ticks[..|ticks| - 1]).value.state, ticks[|ticks| - 1]);
    }
  }

  // ---- ledger and checkpoint

  datatype Ledger = Ledger(
    cash: real, position: real, averageEntry: real, realizedPnl: real, fees: real, equity: real)

  /** `None` when a position is open and there is no mark for it. */
  function LedgerOf(ar: Arith, m: Mirror, mark: Option<real>): Option<Ledger> {
    if m.position != 0.0 && mark.None? then None
    else
      Some(Ledger(m.cash, m.position, m.avgEntry.GetOr(0.0), m.realizedPnl, m.totalFees,
                  if m.position != 0.0 then ar.Add(m.cash, ar.Mul(m.position, mark.value)) else m.cash))
  }

  datatype Checkpoint = Checkpoint(
    cash: real,
    position: real,
    averageEntry: Option<real>,
    realizedPnl: real,
    fees: real,
    equity: real,
    entryFees: real,
    lastEventMs: Option<int>)

  function BookFromLedger(l: Ledger, entryFees: real, lastEventMs: Option<int>): Checkpoint {
    Checkpoint(l.cash, l.position, if l.position == 0.0 then None else Some(l.averageEntry),
               l.realizedPnl, l.fees, l.equity, entryFees, lastEventMs)
  }

  /** The mirror a replay resumes from: slippage is not kept in a checkpoint and restarts at zero. */
  function Resume(c: Checkpoint): Mirror {
    Mirror(c.cash, c.position, c.averageEntry, c.entryFees, 0.0, c.realizedPnl, c.fees, 0.0)
  }

  // ---- event order

  function Insert(es: seq<LogEvent>, e: LogEvent): seq<LogEvent> {
    if es == [] || es[|es| - 1].ts <= e.ts then es + [e]
    else Insert(es[..|es| - 1], e) + [es[|es| - 1]]
  }

  /** Stable ascending order by timestamp. */
  function SortByTime(es: seq<LogEvent>): seq<LogEvent> {
    if es == [] then [] else Insert(SortByTime(es[..|es| - 1]), es[|es| - 1])
  }

  predicate InOrder(es: seq<LogEvent>) {
    forall i, j :: 0 <= i < j < |es| ==> es[i].ts <= es[j].ts
  }

  function AtTime(es: seq<LogEvent>, ts: int): seq<LogEvent> {
    if es == [] then []
    else AtTime(es[..|es| - 1], ts) + if es[|es| - 1].ts == ts then [es[|es| - 1]] else []
  }

  function Since(es: seq<LogEvent>, cursor: int): seq<LogEvent> {
    if es == [] then []
    else Since(es[..|es| - 1], cursor) + if es[|es| - 1].ts > cursor then [es[|es| - 1]] else []
  }

  method EventsSince(es: seq<LogEvent>, cursor: int) returns (since: seq<LogEvent>)
    ensures since == Since(es, cursor)
  {
    since := [];
    for i := 0 to |es|
      invariant since == Since(es[..i], cursor)
    {
      assert es[..i + 1][..i] == es[..i];
      if es[i].ts > cursor {
        since := since + [es[i]];
      }
    }
    assert es[..|es|] == es;
  }

  lemma {:induction false} InsertKeepsEvents(es: seq<LogEvent>, e: LogEvent)
    ensures multiset(Insert(es, e)) == multiset(es) + multiset{e}
  {
    if es != [] && es[|es| - 1].ts > e.ts {
      InsertKeepsEvents(es[..|es| - 1], e);
      assert es == es[..|es| - 1] + [es[|es| - 1]];
    }
  }

  lemma {:induction false} InsertKeepsOrder(es: seq<LogEvent>, e: LogEvent)
    requires InOrder(es)
    ensures InOrder(Insert(es, e))
  {
    if es != [] && es[|es| - 1].ts > e.ts {
      var front, last := es[..|es| - 1], es[|es| - 1];
      InsertKeepsOrder(front, e);
      InsertKeepsEvents(front, e);
      forall i | 0 <= i < |Insert(front, e)|
        ensures Insert(front, e)[i].ts <= last.ts
      {
        assert Insert(front, e)[i] in multiset(front) + multiset{e};
      }
      InOrderAppend(Insert(front, e), last);
    }
  }

  lemma {:induction false} InOrderAppend(es: seq<LogEvent>, last: LogEvent)
    requires InOrder(es) && forall i :: 0 <= i < |es| ==> es[i].ts <= last.ts
    ensures InOrder(es + [last])
  {
  }

  lemma {:induction false} AtTimeAppend(es: seq<LogEvent>, e: LogEvent, ts: int)
    ensures AtTime(es + [e], ts) == AtTime(es, ts) + if e.ts == ts then [e] else []
  {
    assert (es + [e])[..|es|] == es;
  }

  lemma {:induction false} InsertKeepsTies(es: seq<LogEvent>, e: LogEvent, ts: int)
    ensures AtTime(Insert(es, e), ts) == AtTime(es + [e], ts)
  {
    AtTimeAppend(es, e, ts);
    if es != [] && es[|es| - 1].ts > e.ts {
      var front, last := es[..|es| - 1], es[|es| - 1];
      InsertKeepsTies(front, e, ts);
      AtTimeAppend(front, e, ts);
      AtTimeAppend(Insert(front, e), last, ts);
    }
  }

  /** The order the reconciliation imposes is the stable one: ascending, the same events, ties as they came. */
  lemma {:induction false} SortSpec(es: seq<LogEvent>, ts: int)
    ensures InOrder(SortByTime(es)) && multiset(SortByTime(es)) == multiset(es)
    ensures AtTime(SortByTime(es), ts) == AtTime(es, ts)
  {
    if es != [] {
      var front, last := es[..|es| - 1], es[|es| - 1];
      SortSpec(front, ts);
      InsertKeepsEvents(SortByTime(front), last);
      InsertKeepsOrder(SortByTime(front), last);
      InsertKeepsTies(SortByTime(front), last, ts);
      AtTimeAppend(SortByTime(front), last, ts);
      assert es == front + [last];
    }
  }

  lemma {:induction false} SortOfOrdered(es: seq<LogEvent>)
    requires InOrder(es)
    ensures SortByTime(es) == es
  {
    hide Insert;
    if es != [] {
      var front, last := es[..|es| - 1], es[|es| - 1];
      SortOfOrdered(front);
      InsertLast(front, last);
      assert es == front + [last];
    }
  }

  lemma {:induction false} InsertLast(es: seq<LogEvent>, e: LogEvent)
    requires es == [] || es[|es| - 1].ts <= e.ts
    ensures Insert(es, e) == es + [e]
  {
  }

  lemma {:induction false} SinceSuffix(es: seq<LogEvent>, n: nat, cursor: int)
    requires n <= |es|
    requires forall i :: 0 <= i < n ==> es[i].ts <= cursor
    requires forall i :: n <= i < |es| ==> es[i].ts > cursor
    ensures Since(es, cursor) == es[n..]
  {
    if es != [] {
      var front := es[..|es| - 1];
      if n == |es| {
        SinceSuffix(front, n - 1, cursor);
      } else {
        SinceSuffix(front, n, cursor);
        assert es[n..] == front[n..] + [es[|es| - 1]];
      }
    }
  }

  // ---- reconciliation

  datatype Comparison = Comparison(name: string, expected: real, actual: real)

  datatype Verdict = Verdict(
    pass: bool, ledger: Ledger, book: Checkpoint, mismatches: seq<string>, residual: real)

  function LastTime(es: seq<LogEvent>): Option<int> {
    if es == [] then None else Some(es[|es| - 1].ts)
  }

  /** The comparisons in the order the source makes them; average entry only while both sides are open. */
  function Comparisons(full: Ledger, incremental: Ledger, ordered: seq<LogEvent>): seq<Comparison> {
    [Comparison("cash", full.cash, incremental.cash),
     Comparison("position_qty", full.position, incremental.position)]
    + (if full.position > 0.0 && incremental.position > 0.0 then
         [Comparison("average_entry", full.averageEntry, incremental.averageEntry)] else [])
    + [Comparison("realized_pnl", full.realizedPnl, incremental.realizedPnl),
       Comparison("fees", full.fees, incremental.fees),
       Comparison("equity", full.equity, incremental.equity)]
    + (if ordered != [] then [Comparison("equity", full.equity, ordered[|ordered| - 1].equity)] else [])
  }

  function Mismatches(cs: seq<Comparison>): seq<string> {
    if cs == [] then []
    else
      Mismatches(cs[..|cs| - 1]) +
      var c := cs[|cs| - 1]; if Abs(c.expected - c.actual) != 0.0 then [c.name] else []
  }

  function Deltas(cs: seq<Comparison>): seq<real> {
    if cs == [] then []
    else Deltas(cs[..|cs| - 1]) + [Abs(cs[|cs| - 1].expected - cs[|cs| - 1].actual)]
  }

  /** Largest of the deltas, none of which is negative. */
  function Largest(xs: seq<real>): real {
    if xs == [] then 0.0 else Max(Largest(xs[..|xs| - 1]), xs[|xs| - 1])
  }

  /** `None` when a replay needs a mark that is missing. An absent checkpoint, or one without a cursor, passes as a
      new baseline. */
  function Reconcile(ar: Arith, events: seq<LogEvent>, capital: real, mark: Option<real>, previous: Option<Checkpoint>)
    : Option<Verdict>
  {
    var ordered := SortByTime(events);
    var fullState := Advance(ar, MirrorStart(capital), ordered);
    match LedgerOf(ar, fullState, mark)
    case None => None
    case Some(full) =>
      var book := BookFromLedger(full, fullState.entryFees, LastTime(ordered));
      if previous.None? || previous.value.lastEventMs.None? then Some(Verdict(true, full, book, [], 0.0))
      else
        var since := Since(ordered, previous.value.lastEventMs.value);
        match LedgerOf(ar, Advance(ar, Resume(previous.value), since), mark)
        case None => None
        case Some(incremental) =>
          var cs := Comparisons(full, incremental, ordered);
          if Mismatches(cs) == [] then Some(Verdict(true, full, book, [], 0.0))
          else Some(Verdict(false, full, book, Mismatches(cs), Largest(Deltas(cs))))
  }

  method Compare(mismatches: seq<string>, deltas: seq<real>, c: Comparison, ghost made: seq<Comparison>)
    returns (names: seq<string>, all: seq<real>)
    requires mismatches == Mismatches(made) && deltas == Deltas(made)
    ensures names == Mismatches(made + [c]) && all == Deltas(made + [c])
  {
    var delta := Abs(c.expected - c.actual);
    all := deltas + [delta];
    names := mismatches;
    if delta != 0.0 {
      names := names + [c.name];
    }
    assert (made + [c])[..|made|] == made;
  }

  method MaxOf(xs: seq<real>) returns (m: real)
    ensures m == Largest(xs)
  {
    m := 0.0;
    for i := 0 to |xs|
      invariant m == Largest(xs[..i])
    {
      assert xs[..i + 1][..i] == xs[..i];
      m := Max(m, xs[i]);
    }
    assert xs[..|xs|] == xs;
  }

  method CompareLedgers(full: Ledger, incremental: Ledger, ordered: seq<LogEvent>)
    returns (names: seq<string>, deltas: seq<real>)
    ensures names == Mismatches(Comparisons(full, incremental, ordered))
    ensures deltas == Deltas(Comparisons(full, incremental, ordered))
  {
    ghost var made: seq<Comparison> := [];
    names, deltas := [], [];
    assert names == Mismatches(made) && deltas == Deltas(made);
    hide Mismatches, Deltas;
    var c := Comparison("cash", full.cash, incremental.cash);
    names, deltas := Compare(names, deltas, c, made);
    made := made + [c];
    c := Comparison("position_qty", full.position, incremental.position);
    names, deltas := Compare(names, deltas, c, made);
    made := made + [c];
    if full.position > 0.0 && incremental.position > 0.0 {
      c := Comparison("average_entry", full.averageEntry, incremental.averageEntry);
      names, deltas := Compare(names, deltas, c, made);
      made := made + [c];
    }
    c := Comparison("realized_pnl", full.realizedPnl, incremental.realizedPnl);
    names, deltas := Compare(names, deltas, c, made);
    made := made + [c];
    c := Comparison("fees", full.fees, incremental.fees);
    names, deltas := Compare(names, deltas, c, made);
    made := made + [c];
    c := Comparison("equity", full.equity, incremental.equity);
    names, deltas := Compare(names, deltas, c, made);
    made := made + [c];
    if ordered != [] {
      c := Comparison("equity", full.equity, ordered[|ordered| - 1].equity);
      names, deltas := Compare(names, deltas, c, made);
      made := made + [c];
    }
    assert made == Comparisons(full, incremental, ordered);
  }

  /** The three-way reconciliation: full replay, replay from the checkpoint, and the live equity of the last event. */
  method ReconcileWithBook(
    ar: Arith, events: seq<LogEvent>, capital: real, mark: Option<real>, previous: Option<Checkpoint>)
    returns (verdict: Option<Verdict>)
    ensures verdict == Reconcile(ar, events, capital, mark, previous)
  {
    var ordered := SortByTime(events);
    var fullState := AdvanceOver(ar, MirrorStart(capital), ordered);
    var full := LedgerOf(ar, fullState, mark);
    if full.None? {
      return None;
    }
    var book := BookFromLedger(full.value, fullState.entryFees, LastTime(ordered));
    if previous.None? || previous.value.lastEventMs.None? {
      return Some(Verdict(true, full.value, book, [], 0.0));
    }
    var since := EventsSince(ordered, previous.value.lastEventMs.value);
    var resumed := AdvanceOver(ar, Resume(previous.value), since);
    var incremental := LedgerOf(ar, resumed, mark);
    if incremental.None? {
      return None;
    }
    var names, deltas := CompareLedgers(full.value, incremental.value, ordered);
    if names != [] {
      var residual := MaxOf(deltas);
      return Some(Verdict(false, full.value, book, names, residual));
    }
    return Some(Verdict(true, full.value, book, [], 0.0));
  }
}
