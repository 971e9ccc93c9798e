/** When the checkpoint cursor is shared by later events: exactly when an honest log still passes reconciliation. */
module TiedCursor {
  import opened Numerics
  import opened Portfolio
  import opened Risk
  import opened PaperTrading
  import opened PaperSafety
  import opened Reconciliation
  import opened ReconciliationProofs
  import DailyLoss

  /** A setup in which every fill costs something. */
  predicate Charging(su: Setup) {
    SoundSetup(su) && su.takerBps > 0.0 && su.slippageBps < 10_000.0
  }

  predicate Positive(ticks: seq<Tick>) {
    forall i :: 0 <= i < |ticks| ==> ticks[i].price > 0.0
  }

  /** What every line of a charging session looks like: a fill has a fee, a quantity and a price. */
  predicate Plain(e: LogEvent) {
    e.filled ==> e.fee > 0.0 && e.quantity.Some? && e.quantity.value > 0.0 && e.execPrice.Some? && !e.action.Hold?
  }

  function Charge(e: LogEvent): real {
    if e.filled then e.fee else 0.0
  }

  function Charges(events: seq<LogEvent>): real {
    if events == [] then 0.0 else Charges(events[..|events| - 1]) + Charge(events[|events| - 1])
  }

  // ---- every fill is charged in full to the account

  lemma {:induction false} PositiveFee(quantity: real, exec: real, rate: real)
    requires quantity > 0.0 && exec > 0.0 && rate > 0.0
    ensures quantity * exec > 0.0 && (quantity * exec) * rate > 0.0
  {
  }

  lemma {:induction false} CloseCharged(su: Setup, st: EngineState, t: Tick, reason: string, equity: real)
    requires Charging(su) && Solvent(su, st) && st.position.Some? && t.price > 0.0
    ensures
      var (next, event) := Close(su, st, t.price, t.ts, reason);
      Plain(Logged(t, event, equity)) && event.filled
      && next.book.totalFees == st.book.totalFees + Logged(t, event, equity).fee
  {
    var fill := SellFill(su, t.price, st.position.value.quantity, t.ts);
    ExecPrices(su, t.price);
    assert t.price * (1.0 - su.SlippageRate()) > 0.0;
    PositiveFee(fill.quantity, fill.execPrice, su.FeeRate());
    SellAll(st.book, fill);
  }

  lemma {:induction false} OpenCharged(
    su: Setup, st: EngineState, t: Tick, sized: real, stop: real, target: Option<real>, equity: real)
    requires Charging(su) && sized > 0.0 && t.price > 0.0 && st.book.cash > 0.0
    ensures
      var (next, outcome) := Open(su, st, sized, t.price, stop, target, t.ts);
      outcome.Done? ==>
        outcome.event.filled && Plain(Logged(t, outcome.event, equity))
        && next.book.totalFees == st.book.totalFees + Logged(t, outcome.event, equity).fee
  {
    BoughtFill(su, st.book.cash, sized, t.price, t.ts);
    var fill := BuyFill(su, st.book.cash, sized, t.price, t.ts);
    PositiveFee(fill.quantity, fill.execPrice, su.FeeRate());
  }

  predicate ChargedStep(su: Setup, before: Book, after: Book, e: LogEvent) {
    Plain(e) && after.totalFees == before.totalFees + Charge(e)
  }

  lemma {:induction false} DecideCharged(su: Setup, st: EngineState, t: Tick, equity: real)
    requires Charging(su) && Solvent(su, st) && t.price > 0.0
    ensures
      var (next, outcome) := Decide(su, st, t.killActive, t.decision, t.price, t.atr, t.ts);
      outcome.Done? ==> ChargedStep(su, st.book, next.book, Logged(t, outcome.event, equity))
  {
    var d := t.decision;
    var proposal := TradeProposal(d.action, d.intensity, t.price, t.atr);
    var view := RiskView(su, st, t.killActive, t.price);
    var verdict := Evaluate(su.ar, su.risk, proposal, view);
    var marked := MarkPeak(su, st, t.price);
    if verdict.approved && d.action.Sell? && st.position.Some? {
      CloseCharged(su, marked, t, "llm_sell", equity);
    } else if verdict.approved && d.action.Buy? {
      ApprovedBuy(su, st, t.killActive, d, t.price, t.atr);
      EntryWithinCap(su.risk, proposal, view);
      OpenCharged(su, marked, t, verdict.size.value.quantity, EntryStop(su, verdict, t.price), verdict.takeProfit,
                  equity);
    }
  }

  lemma {:induction false} TickCharged(su: Setup, st: EngineState, t: Tick)
    requires Charging(su) && Solvent(su, st) && t.price > 0.0 && SessionStep(su, st, t).Some?
    ensures
      var (next, event) := SessionStep(su, st, t).value;
      ChargedStep(su, st.book, next.book, event)
  {
    var (next, outcome) := OnPrice(su, st, t.killActive, t.decision, t.price, t.atr, t.ts);
    var equity := Equity(su.ar, next.book, t.price);
    var seen := Arrive(st, t.price, t.atr, t.ts);
    if seen.position.None? {
      DecideCharged(su, seen, t, equity);
    } else {
      var pos := Raise(su, seen.position.value, t.price, seen.lastAtr);
      var held := seen.(position := Some(pos));
      match ExitReason(pos, t.price) {
        case Some(reason) => CloseCharged(su, held, t, reason, equity);
        case None => DecideCharged(su, held, t, equity);
      }
    }
  }

  lemma {:induction false} PositiveArePriced(ticks: seq<Tick>)
    requires Positive(ticks)
    ensures Priced(ticks)
  {
  }

  lemma {:induction false} ChargesGrow(log: seq<LogEvent>, e: LogEvent)
    ensures Charges(log + [e]) == Charges(log) + Charge(e)
  {
    assert (log + [e])[..|log|] == log;
  }

  /** The fees of a session's account are those of the fills it logged. */
  lemma {:induction false} SessionCharged(su: Setup, ticks: seq<Tick>)
    requires Charging(su) && Positive(ticks)
    ensures RunSession(su, ticks).Some? ==>
      var session := RunSession(su, ticks).value;
      session.state.book.totalFees == Charges(session.log) && forall e :: e in session.log ==> Plain(e)
  {
    hide SessionStep, Solvent, Plain, Charge;
    if ticks != [] && RunSession(su, ticks).Some? {
      var before := ticks[..|ticks| - 1];
      PositiveArePriced(before);
      SessionStaysSolvent(su, before);
      SessionCharged(su, before);
      StepOfSession(su, ticks);
      var session := RunSession(su, before).value;
      TickCharged(su, session.state, ticks[|ticks| - 1]);
      var event := SessionStep(su, session.state, ticks[|ticks| - 1]).value.1;
      ChargesGrow(session.log, event);
    }
  }

  // ---- no mirror charges more

  lemma {:induction false} Share(fee: real, sold: real, quantity: real)
    requires fee >= 0.0 && 0.0 <= sold <= quantity && quantity > 0.0
    ensures fee * (sold / quantity) <= fee
  {
    var scale := sold / quantity;
    assert scale * quantity == sold;
    assert scale <= 1.0;
    assert fee * (1.0 - scale) >= 0.0;
  }

  lemma {:induction false} StepChargesAtMost(m: Mirror, e: LogEvent)
    requires Plain(e)
    ensures MirrorStep(Exact, m, e).totalFees <= m.totalFees + Charge(e)
  {
    if e.filled && e.action.Sell? && m.position > 0.0 {
      Share(e.fee, Min(e.quantity.value, m.position), e.quantity.value);
    }
  }

  lemma {:induction false} AdvanceChargesAtMost(m: Mirror, events: seq<LogEvent>)
    requires forall e :: e in events ==> Plain(e)
    ensures Advance(Exact, m, events).totalFees <= m.totalFees + Charges(events)
  {
    if events != [] {
      AdvanceChargesAtMost(m, events[..|events| - 1]);
      StepChargesAtMost(Advance(Exact, m, events[..|events| - 1]), events[|events| - 1]);
    }
  }

  lemma {:induction false} ChargesConcat(a: seq<LogEvent>, b: seq<LogEvent>)
    ensures Charges(a + b) == Charges(a) + Charges(b)
  {
    if b == [] {
      assert a + b == a;
    } else {
      assert (a + b)[..|a + b| - 1] == a + b[..|b| - 1];
      ChargesConcat(a, b[..|b| - 1]);
    }
  }

  predicate Quiet(events: seq<LogEvent>) {
    forall e :: e in events ==> !e.filled
  }

  lemma {:induction false} QuietIff(events: seq<LogEvent>)
    requires forall e :: e in events ==> Plain(e)
    ensures Charges(events) >= 0.0 && (Charges(events) == 0.0 <==> Quiet(events))
  {
    if events != [] {
      var front, last := events[..|events| - 1], events[|events| - 1];
      assert last in events;
      assert forall e :: e in events <==> e in front || e == last;
      QuietIff(front);
    }
  }

  lemma {:induction false} QuietChangesNothing(ar: Arith, m: Mirror, events: seq<LogEvent>)
    requires Quiet(events)
    ensures Advance(ar, m, events) == m
  {
    if events != [] {
      QuietChangesNothing(ar, m, events[..|events| - 1]);
    }
  }

  // ---- the exact condition

  /** First place from `n` on whose event is later than the cursor. */
  function TieEnd(log: seq<LogEvent>, n: nat, cursor: int): (k: nat)
    requires n <= |log|
    ensures n <= k <= |log|
    ensures forall j :: n <= j < k ==> log[j].ts <= cursor
    ensures k < |log| ==> log[k].ts > cursor
    decreases |log| - n
  {
    if n == |log| || log[n].ts > cursor then n else TieEnd(log, n + 1, cursor)
  }

  lemma {:induction false} SinceTies(log: seq<LogEvent>, n: nat)
    requires InOrder(log) && 0 < n <= |log|
    ensures Since(log, log[n - 1].ts) == log[TieEnd(log, n, log[n - 1].ts)..]
  {
    SinceSuffix(log, TieEnd(log, n, log[n - 1].ts), log[n - 1].ts);
  }

  /** The events after the first `n` that share the cursor: a later replay from the checkpoint skips them. */
  function Tied(log: seq<LogEvent>, n: nat): seq<LogEvent>
    requires 0 < n <= |log|
  {
    log[n..TieEnd(log, n, log[n - 1].ts)]
  }

  lemma {:induction false} TiedIsTied(log: seq<LogEvent>, n: nat)
    requires InOrder(log) && 0 < n <= |log|
    ensures
      Quiet(Tied(log, n)) <==> forall j :: n <= j < |log| && log[j].ts == log[n - 1].ts ==> !log[j].filled
  {
    var cursor := log[n - 1].ts;
    var k := TieEnd(log, n, cursor);
    forall j | n <= j < |log| && log[j].ts == cursor && Quiet(Tied(log, n))
      ensures !log[j].filled
    {
      assert j < k;
      assert Tied(log, n)[j - n] == log[j];
    }
  }

  lemma {:induction false} SkippingQuiet(
    ar: Arith, capital: real, log: seq<LogEvent>, n: nat, markThen: Option<real>, mark: Option<real>)
    requires 0 < n <= |log| && Replayed(ar, capital, log[..n], markThen).Some? && mark.Some? && Quiet(Tied(log, n))
    ensures
      var rest := log[TieEnd(log, n, log[n - 1].ts)..];
      Agree(Replayed(ar, capital, log, mark).value,
            Resumed(ar, CheckpointAt(ar, capital, log, n, markThen), rest, mark).value)
  {
    var rest := log[TieEnd(log, n, log[n - 1].ts)..];
    var start := Resume(CheckpointAt(ar, capital, log, n, markThen));
    ResumedAgrees(ar, capital, log, n, markThen, mark);
    assert log[n..] == Tied(log, n) + rest;
    AdvanceConcat(ar, start, Tied(log, n), rest);
    QuietChangesNothing(ar, start, Tied(log, n));
  }

  /** Charges of the session's first `n` lines, and of its whole log, as the account has them. */
  lemma {:induction false} PrefixCharged(su: Setup, ticks: seq<Tick>, n: nat)
    requires Charging(su) && Positive(ticks) && RunSession(su, ticks).Some? && n <= |ticks|
    ensures
      |RunSession(su, ticks).value.log| == |ticks| &&
      var log := RunSession(su, ticks).value.log;
      && Advance(su.ar, MirrorStart(su.risk.capital), log[..n]).totalFees == Charges(log[..n])
      && forall e :: e in log ==> Plain(e)
  {
    SessionCharged(su, ticks);
    DailyLoss.LogExtends(su, ticks, n);
    SessionCharged(su, ticks[..n]);
    SessionMirrored(su, ticks[..n]);
  }

  lemma {:induction false} ChargesSplit(log: seq<LogEvent>, n: nat)
    requires 0 < n <= |log|
    ensures
      Charges(log)
      == Charges(log[..n]) + Charges(Tied(log, n)) + Charges(log[TieEnd(log, n, log[n - 1].ts)..])
  {
    var rest := log[TieEnd(log, n, log[n - 1].ts)..];
    assert log == log[..n] + (Tied(log, n) + rest);
    ChargesConcat(log[..n], Tied(log, n) + rest);
    ChargesConcat(Tied(log, n), rest);
  }

  /** A skipped fill leaves the replay from a mirror that had the fees of the first `n` events short of fees. */
  lemma {:induction false} SkippedFeesMissing(log: seq<LogEvent>, n: nat, start: Mirror)
    requires 0 < n <= |log| && (forall e :: e in log ==> Plain(e))
    requires start.totalFees == Charges(log[..n]) && !Quiet(Tied(log, n))
    ensures Advance(Exact, start, log[TieEnd(log, n, log[n - 1].ts)..]).totalFees < Charges(log)
  {
    ChargesSplit(log, n);
    QuietIff(Tied(log, n));
    AdvanceChargesAtMost(start, log[TieEnd(log, n, log[n - 1].ts)..]);
  }

  /** A skipped fill leaves the replay from the checkpoint short of fees. */
  lemma {:induction false} SkippingFill(su: Setup, ticks: seq<Tick>, log: seq<LogEvent>, n: nat, markThen: Option<real>)
    requires Charging(su) && Positive(ticks) && 0 < n <= |ticks|
    requires RunSession(su, ticks).Some? && log == RunSession(su, ticks).value.log && |log| == |ticks|
    requires Replayed(su.ar, su.risk.capital, log[..n], markThen).Some? && !Quiet(Tied(log, n))
    ensures
      var rest := log[TieEnd(log, n, log[n - 1].ts)..];
      var full := Advance(su.ar, MirrorStart(su.risk.capital), log);
      var start := Resume(CheckpointAt(su.ar, su.risk.capital, log, n, markThen));
      Advance(su.ar, start, rest).totalFees < full.totalFees
  {
    PrefixCharged(su, ticks, n);
    PrefixCharged(su, ticks, |ticks|);
    assert log[..|ticks|] == log;
    SkippedFeesMissing(log, n, Resume(CheckpointAt(su.ar, su.risk.capital, log, n, markThen)));
  }

  lemma {:induction false} ExactNeutral()
    ensures Exact.ZeroNeutral()
  {
  }

  /** The verdict on an ordered log whose last equity is the replayed one, whatever the cursor shares. */
  lemma {:induction false} TiedVerdict(
    ar: Arith, capital: real, log: seq<LogEvent>, n: nat, markThen: Option<real>, mark: real)
    requires InOrder(log) && 0 < n <= |log| && Replayed(ar, capital, log[..n], markThen).Some?
    requires LiveEquity(Replayed(ar, capital, log, Some(mark)).value, log)
    ensures
      var checkpoint := CheckpointAt(ar, capital, log, n, markThen);
      var verdict := Reconcile(ar, log, capital, Some(mark), Some(checkpoint));
      var rest := log[TieEnd(log, n, log[n - 1].ts)..];
      verdict.Some? &&
      (verdict.value.pass <==>
       Agree(Replayed(ar, capital, log, Some(mark)).value, Resumed(ar, checkpoint, rest, Some(mark)).value))
  {
    SortOfOrdered(log);
    SinceTies(log, n);
    PassIff(ar, log, capital, Some(mark), CheckpointAt(ar, capital, log, n, markThen), log[n - 1].ts);
  }

  lemma {:induction false} SkippedFillDisagrees(
    su: Setup, ticks: seq<Tick>, log: seq<LogEvent>, n: nat, markThen: Option<real>, mark: real)
    requires Charging(su) && Positive(ticks) && 0 < n <= |ticks|
    requires RunSession(su, ticks).Some? && log == RunSession(su, ticks).value.log && |log| == |ticks|
    requires Replayed(su.ar, su.risk.capital, log[..n], markThen).Some? && !Quiet(Tied(log, n))
    ensures
      var rest := log[TieEnd(log, n, log[n - 1].ts)..];
      !Agree(Replayed(su.ar, su.risk.capital, log, Some(mark)).value,
             Resumed(su.ar, CheckpointAt(su.ar, su.risk.capital, log, n, markThen), rest, Some(mark)).value)
  {
    SkippingFill(su, ticks, log, n, markThen);
  }

  lemma {:induction false} TiedFillDecides(
    su: Setup, ticks: seq<Tick>, log: seq<LogEvent>, n: nat, markThen: Option<real>)
    requires Charging(su) && Positive(ticks) && 0 < n <= |ticks|
    requires RunSession(su, ticks).Some? && log == RunSession(su, ticks).value.log && |log| == |ticks|
    requires Replayed(su.ar, su.risk.capital, log[..n], markThen).Some?
    ensures
      var checkpoint := CheckpointAt(su.ar, su.risk.capital, log, n, markThen);
      var verdict := Reconcile(su.ar, log, su.risk.capital, Some(ticks[|ticks| - 1].price), Some(checkpoint));
      verdict.Some? &&
      (verdict.value.pass <==> forall j :: n <= j < |log| && log[j].ts == log[n - 1].ts ==> !log[j].filled)
  {
    var price := ticks[|ticks| - 1].price;
    PositiveArePriced(ticks);
    SessionStaysSolvent(su, ticks);
    SessionInOrder(su, ticks);
    assert LiveEquity(Replayed(su.ar, su.risk.capital, log, Some(price)).value, log) by {
      ExactNeutral();
      SessionEquityReplayed(su, ticks);
    }
    TiedVerdict(su.ar, su.risk.capital, log, n, markThen, price);
    TiedIsTied(log, n);
    if Quiet(Tied(log, n)) {
      SkippingQuiet(su.ar, su.risk.capital, log, n, markThen, Some(price));
    } else {
      SkippedFillDisagrees(su, ticks, log, n, markThen, price);
    }
  }

  /** The exact condition: in a session whose fills all cost something, an honest log passes against the checkpoint of
      its first `n` events if and only if no later event that shares the checkpoint's timestamp is a fill. */
  lemma {:induction false} HonestPassesIffNoTiedFill(su: Setup, ticks: seq<Tick>, n: nat, markThen: Option<real>)
    requires Charging(su) && Positive(ticks) && 0 < n <= |ticks| && RunSession(su, ticks).Some?
    ensures |RunSession(su, ticks).value.log| == |ticks|
    ensures
      var log, capital := RunSession(su, ticks).value.log, su.risk.capital;
      Replayed(su.ar, capital, log[..n], markThen).Some? ==>
        var checkpoint := CheckpointAt(su.ar, capital, log, n, markThen);
        var verdict := Reconcile(su.ar, log, capital, Some(ticks[|ticks| - 1].price), Some(checkpoint));
        verdict.Some? &&
        (verdict.value.pass <==> forall j :: n <= j < |log| && log[j].ts == log[n - 1].ts ==> !log[j].filled)
  {
    hide Reconcile, Replayed, RunSession;
    SessionLogged(su, ticks);
    var log := RunSession(su, ticks).value.log;
    if Replayed(su.ar, su.risk.capital, log[..n], markThen).Some? {
      TiedFillDecides(su, ticks, log, n, markThen);
    }
  }

  const PLAIN: Setup := Setup(Exact, DEFAULT_RISK, 10.0, 2.0)

  /** Such a tie happens: two candles of one timestamp, the first held, the second bought. */
  lemma {:induction false} TiedFillHappens()
    ensures Charging(PLAIN)
    ensures
      var hold := Tick(Decision(Action.Hold, Medium), 100.0, Some(1.0), 0, false);
      var buy := Tick(Decision(Action.Buy, Medium), 100.0, Some(1.0), 0, false);
      var session := RunSession(PLAIN, [hold, buy]);
      && session.Some? && |session.value.log| == 2
      && session.value.log[0].ts == session.value.log[1].ts && session.value.log[1].filled
  {
    var hold := Tick(Decision(Action.Hold, Medium), 100.0, Some(1.0), 0, false);
    var buy := Tick(Decision(Action.Buy, Medium), 100.0, Some(1.0), 0, false);
    assert [hold, buy][..1] == [hold] && [hold][..0] == [];
    assert RunSession(PLAIN, [hold][..0]) == Some(Session(Fresh(1000.0), []));
    var st := SessionStep(PLAIN, Fresh(1000.0), hold).value.0;
    assert RunSession(PLAIN, [hold, buy][..1]).value.state == st;
    var seen := Arrive(st, 100.0, Some(1.0), 0);
    assert ComputePositionSize(Exact, Medium, 1.0, 100.0, 0.0, PLAIN.risk).quantity == 0.2;
    var verdict := Evaluate(Exact, PLAIN.risk, TradeProposal(Action.Buy, Medium, 100.0, Some(1.0)),
                            RiskView(PLAIN, seen, false, 100.0));
    assert verdict.approved && verdict.size.value.quantity == 0.2;
    Affordable(PLAIN, 1000.0, 0.2, 100.0, 0);
  }
}
