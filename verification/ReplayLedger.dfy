/** Bookkeeping of whole replays: each decision and trade is counted once, and the risk engine sees the ledger. */
module ReplayLedger {
  import opened Numerics
  import opened Risk
  import opened Replay
  import opened ReplayCausality

  function NetOf(rs: seq<Record>): real {
    if rs == [] then 0.0 else NetOf(rs[..|rs| - 1]) + rs[|rs| - 1].netPnl
  }

  /** Net of the records closed on a UTC day. */
  function DayNetOf(rs: seq<Record>, day: int): real {
    if rs == [] then 0.0
    else
      DayNetOf(rs[..|rs| - 1], day) + if UtcDay(rs[|rs| - 1].exitFillTs) == day then rs[|rs| - 1].netPnl else 0.0
  }

  /** Highest equity ever reached on closed records, the initial capital included. */
  function PeakOf(capital: real, rs: seq<Record>): real {
    if rs == [] then capital else Max(PeakOf(capital, rs[..|rs| - 1]), capital + NetOf(rs))
  }

  function StrategyExits(rs: seq<Record>): nat {
    if rs == [] then 0
    else StrategyExits(rs[..|rs| - 1]) + if rs[|rs| - 1].exitReason == "strategy_exit" then 1 else 0
  }

  lemma {:induction false} TotalsAppend(capital: real, rs: seq<Record>, r: Record, day: int)
    ensures NetOf(rs + [r]) == NetOf(rs) + r.netPnl
    ensures DayNetOf(rs + [r], day) == DayNetOf(rs, day) + if UtcDay(r.exitFillTs) == day then r.netPnl else 0.0
    ensures PeakOf(capital, rs + [r]) == Max(PeakOf(capital, rs), capital + NetOf(rs + [r]))
    ensures StrategyExits(rs + [r]) == StrategyExits(rs) + if r.exitReason == "strategy_exit" then 1 else 0
  {
    assert (rs + [r])[..|rs|] == rs;
  }

  // ---- the invariant

  /** Counters: nothing is lost between the queue, the fills, the drops and the rejections. */
  predicate Counted(st: State) {
    && st.stats.total == st.stats.filled + st.stats.dropped + st.stats.rejected + st.stats.unfilled + |st.queue|
    && st.stats.filled == |st.records| + StrategyExits(st.records) + (if st.position.Some? then 1 else 0)
    && st.stats.closedTrades == |st.records|
    && (st.pending.Some? ==> st.position.Some? && st.pending.value.triggerIndex.Some?)
  }

  /** Positions never overlap: each record enters no earlier than the one before it left, in trade order. */
  predicate Disjoint(st: State, k: nat) {
    && (forall i :: 0 <= i < |st.records| ==> st.records[i].entry.fillIndex <= st.records[i].exitFillIndex <= k)
    && (forall i :: 0 < i < |st.records| ==> st.records[i - 1].exitFillIndex <= st.records[i].entry.fillIndex)
    && (st.position.Some? ==>
          && st.position.value.fillIndex <= k
          && (st.records != [] ==>
                st.records[|st.records| - 1].exitFillIndex <= st.position.value.fillIndex))
  }

  /** In dynamic mode the portfolio figures the risk engine reads are those of the ledger. */
  predicate Mirrors(sc: Scenario, st: State, now: int) {
    sc.dynamic ==>
      && st.realizedTotal == NetOf(st.records)
      && st.peakEquity == PeakOf(sc.risk.capital, st.records)
      && (forall r :: r in st.records ==> r.exitFillTs <= now && st.day.Some? && UtcDay(r.exitFillTs) <= st.day.value)
      && (st.day.Some? ==> st.day.value <= UtcDay(now) && st.realizedToday == DayNetOf(st.records, st.day.value))
      && (st.day.None? ==> st.records == [] && st.realizedToday == 0.0)
  }

  lemma {:induction false} NothingLater(rs: seq<Record>, day: int)
    requires forall r :: r in rs ==> UtcDay(r.exitFillTs) < day
    ensures DayNetOf(rs, day) == 0.0
  {
    if rs != [] {
      NothingLater(rs[..|rs| - 1], day);
    }
  }

  lemma {:induction false} RollMirrors(sc: Scenario, st: State, now: int, ts: int)
    requires Mirrors(sc, st, now) && now <= ts && sc.dynamic
    ensures
      var rolled := RollDay(st, ts);
      && Mirrors(sc, rolled, ts) && rolled.day == Some(UtcDay(ts))
      && rolled.realizedToday == DayNetOf(st.records, UtcDay(ts))
  {
    if st.day.Some? && st.day.value != UtcDay(ts) {
      NothingLater(st.records, UtcDay(ts));
    }
  }

  // ---- stage by stage

  lemma {:induction false} FinishCounts(
    sc: Scenario, st: State, pos: Position, p: PendingExit, ts: int, k: nat, price: real)
    requires st.stats.closedTrades == |st.records| && st.position.Some? && Disjoint(st, k)
    requires pos.fillIndex == st.position.value.fillIndex
    ensures
      var next := Finish(sc, st, pos, p, ts, k, price);
      && Disjoint(next, k) && next.position.None? && next.pending.None? && next.queue == st.queue
      && next.stats == st.stats.(closedTrades := |next.records|)
      && |next.records| == |st.records| + 1
      && StrategyExits(next.records) == StrategyExits(st.records) + if p.reason == "strategy_exit" then 1 else 0
  {
    var next, record := Finish(sc, st, pos, p, ts, k, price), CloseRecord(sc, pos, p, ts, k, price);
    TotalsAppend(sc.risk.capital, st.records, record, 0);
    assert next.records == st.records + [record];
    assert record.entry == pos && record.exitFillIndex == k && record.exitReason == p.reason;
    AppendDisjoint(st, next, record, k);
  }

  lemma {:induction false} AppendDisjoint(st: State, next: State, record: Record, k: nat)
    requires Disjoint(st, k) && st.position.Some? && next.position.None? && next.records == st.records + [record]
    requires record.entry.fillIndex == st.position.value.fillIndex && record.exitFillIndex == k
    ensures Disjoint(next, k)
  {
  }

  lemma {:induction false} FinishMirrors(
    sc: Scenario, st: State, pos: Position, p: PendingExit, now: int, ts: int, k: nat, price: real)
    requires Mirrors(sc, st, now) && now <= ts
    ensures Mirrors(sc, Finish(sc, st, pos, p, ts, k, price), ts)
  {
    if sc.dynamic {
      RollMirrors(sc, st, now, ts);
      TotalsAppend(sc.risk.capital, st.records, CloseRecord(sc, pos, p, ts, k, price), UtcDay(ts));
    }
  }

  /** Confirming a candle touches only the queue, its count, the candle index and the position's current ATR. */
  lemma {:induction false} ConfirmShape(env: Env, st: State)
    requires st.candleI < |env.candles| && Confirm(env, st).Ok?
    ensures
      var next := Confirm(env, st).value;
      && next == st.(candleI := next.candleI, asked := next.asked, queue := next.queue, position := next.position,
                     stats := st.stats.(total := next.stats.total))
      && next.stats.total - st.stats.total == |next.queue| - |st.queue|
      && (next.position.Some? <==> st.position.Some?)
      && (st.position.Some? ==> next.position.value.fillIndex == st.position.value.fillIndex)
  {
  }

  lemma {:induction false} ShapeKeeps(sc: Scenario, st: State, next: State, k: nat, now: int)
    requires Counted(st) && Disjoint(st, k) && Mirrors(sc, st, now)
    requires next == st.(candleI := next.candleI, asked := next.asked, queue := next.queue,
                         position := next.position, stats := st.stats.(total := next.stats.total))
    requires next.stats.total - st.stats.total == |next.queue| - |st.queue|
    requires next.position.Some? <==> st.position.Some?
    requires st.position.Some? ==> next.position.value.fillIndex == st.position.value.fillIndex
    ensures Counted(next) && Disjoint(next, k) && Mirrors(sc, next, now)
  {
  }

  lemma {:induction false} ConfirmKeeps(env: Env, st: State, k: nat, now: int)
    requires st.candleI < |env.candles| && Counted(st) && Disjoint(st, k) && Mirrors(env.scenario, st, now)
    ensures Confirm(env, st).Ok? ==>
      var next := Confirm(env, st).value;
      && Counted(next) && Disjoint(next, k) && Mirrors(env.scenario, next, now) && next.pending == st.pending
    ensures Confirm(env, st).Raised? ==> Confirm(env, st).fault == ProviderRefused
  {
    if Confirm(env, st).Ok? {
      ConfirmShape(env, st);
      ShapeKeeps(env.scenario, st, Confirm(env, st).value, k, now);
    }
  }

  lemma {:induction false} AdvanceKeeps(env: Env, st: State, cutoff: int, k: nat, now: int)
    requires Counted(st) && Disjoint(st, k) && Mirrors(env.scenario, st, now)
    ensures Advance(env, st, cutoff).Ok? ==>
      var next := Advance(env, st, cutoff).value;
      && Counted(next) && Disjoint(next, k) && Mirrors(env.scenario, next, now) && next.pending == st.pending
    ensures Advance(env, st, cutoff).Raised? ==> Advance(env, st, cutoff).fault == ProviderRefused
    decreases |env.candles| - st.candleI
  {
    if st.candleI < |env.candles| && env.candles[st.candleI].closeTime <= cutoff {
      ConfirmKeeps(env, st, k, now);
      if Confirm(env, st).Ok? {
        AdvanceKeeps(env, Confirm(env, st).value, cutoff, k, now);
      }
    }
  }

  /** The faults a run can end in: all three start outside the engine's own bookkeeping. */
  predicate Foreign(sc: Scenario, f: Fault) {
    f == ProviderRefused || f == UnknownAction || (f == ApprovedWithoutStops && sc.dynamic && !sc.risk.stopLossRequired)
  }

  /** Opening fails exactly when the risk engine approves an entry without stops: in dynamic mode, at a zero (or
      negative) ATR. It takes a configuration that does not require a stop. */
  lemma {:induction false} BuyRaisesIff(sc: Scenario, st: State, d: Decision, trade: ReplayTrade, k: nat)
    ensures
      TakeBuy(sc, st, d, trade, k).Raised?
      <==> st.position.None? && sc.dynamic && d.atr.Some? && d.atr.value <= 0.0
           && EvaluateRisk(sc, RollDay(st, trade.ts), d).approved
    ensures TakeBuy(sc, st, d, trade, k).Raised? ==>
      TakeBuy(sc, st, d, trade, k).fault == ApprovedWithoutStops && !sc.risk.stopLossRequired
  {
  }

  predicate SameLedger(a: State, b: State) {
    && a.records == b.records && a.realizedTotal == b.realizedTotal && a.realizedToday == b.realizedToday
    && a.day == b.day && a.peakEquity == b.peakEquity
  }

  lemma {:induction false} SellKeeps(sc: Scenario, st: State, d: Decision, trade: ReplayTrade, k: nat, now: int)
    requires Disjoint(st, k) && Mirrors(sc, st, now) && now <= trade.ts && st.pending.None?
    requires Counted(st.(queue := [d] + st.queue))
    ensures
      var next := TakeSell(sc, st, d, trade, k);
      Counted(next) && Disjoint(next, k) && Mirrors(sc, next, trade.ts) && next.pending.None?
  {
    hide Mirrors, Finish;
    if st.position.Some? {
      var p := PendingExit("strategy_exit", d.signalTs, None, trade.price, d.referencePrice);
      var pos := Seen(st.position.value, trade.price);
      var closed := Finish(sc, st, pos, p, trade.ts, k, trade.price);
      FinishCounts(sc, st, pos, p, trade.ts, k, trade.price);
      FinishMirrors(sc, st, pos, p, now, trade.ts, k, trade.price);
      StatsIgnored(sc, closed, closed.stats.(filled := closed.stats.filled + 1), k, trade.ts);
    } else {
      LaterMirrors(sc, st, now, trade.ts);
      StatsIgnored(sc, st, st.stats.(dropped := st.stats.dropped + 1), k, trade.ts);
    }
  }

  lemma {:induction false} StatsIgnored(sc: Scenario, st: State, stats: Stats, k: nat, ts: int)
    ensures Mirrors(sc, st, ts) ==> Mirrors(sc, st.(stats := stats), ts)
    ensures Disjoint(st, k) ==> Disjoint(st.(stats := stats), k)
  {
  }

  lemma {:induction false} LaterMirrors(sc: Scenario, st: State, now: int, ts: int)
    requires Mirrors(sc, st, now) && now <= ts
    ensures Mirrors(sc, st, ts)
  {
  }

  /** What taking a buy can do: drop or reject it, or open a position here; the ledger at most rolls its day. */
  lemma {:induction false} BuyShape(sc: Scenario, st: State, d: Decision, trade: ReplayTrade, k: nat)
    requires TakeBuy(sc, st, d, trade, k).Ok?
    ensures
      var next := TakeBuy(sc, st, d, trade, k).value;
      var s := st.stats;
      && next.pending == st.pending && next.queue == st.queue
      && (SameLedger(next, st) || (sc.dynamic && SameLedger(next, RollDay(st, trade.ts))))
      && ((next.position == st.position
           && (next.stats == s.(dropped := s.dropped + 1) || next.stats == s.(rejected := s.rejected + 1)))
          || (st.position.None? && next.position.Some? && next.position.value.fillIndex == k
              && next.stats == s.(filled := s.filled + 1)))
  {
    hide EvaluateRisk;
  }

  lemma {:induction false} BuyMirrors(sc: Scenario, st: State, next: State, now: int, ts: int)
    requires Mirrors(sc, st, now) && now <= ts
    requires SameLedger(next, st) || (sc.dynamic && SameLedger(next, RollDay(st, ts)))
    ensures Mirrors(sc, next, ts)
  {
    LaterMirrors(sc, st, now, ts);
    if sc.dynamic {
      RollMirrors(sc, st, now, ts);
    }
  }

  lemma {:induction false} BuyKeeps(sc: Scenario, st: State, d: Decision, trade: ReplayTrade, k: nat, now: int)
    requires Disjoint(st, k) && Mirrors(sc, st, now) && now <= trade.ts && st.pending.None?
    requires Counted(st.(queue := [d] + st.queue))
    ensures TakeBuy(sc, st, d, trade, k).Ok? ==>
      var next := TakeBuy(sc, st, d, trade, k).value;
      Counted(next) && Disjoint(next, k) && Mirrors(sc, next, trade.ts) && next.pending.None?
    ensures TakeBuy(sc, st, d, trade, k).Raised? ==> Foreign(sc, TakeBuy(sc, st, d, trade, k).fault)
  {
    hide TakeBuy, EvaluateRisk, Mirrors;
    BuyRaisesIff(sc, st, d, trade, k);
    if TakeBuy(sc, st, d, trade, k).Ok? {
      BuyShape(sc, st, d, trade, k);
      BuyMirrors(sc, st, TakeBuy(sc, st, d, trade, k).value, now, trade.ts);
    }
  }

  lemma {:induction false} TakeKeeps(sc: Scenario, st: State, d: Decision, trade: ReplayTrade, k: nat, now: int)
    requires Disjoint(st, k) && Mirrors(sc, st, now) && now <= trade.ts && st.pending.None?
    requires Counted(st.(queue := [d] + st.queue))
    ensures Take(sc, st, d, trade, k).Ok? ==>
      var next := Take(sc, st, d, trade, k).value;
      Counted(next) && Disjoint(next, k) && Mirrors(sc, next, trade.ts) && next.pending.None?
    ensures Take(sc, st, d, trade, k).Raised? ==> Foreign(sc, Take(sc, st, d, trade, k).fault)
  {
    if d.action == "buy" {
      BuyKeeps(sc, st, d, trade, k, now);
    } else if d.action == "sell" {
      SellKeeps(sc, st, d, trade, k, now);
    }
  }

  lemma {:induction false} DrainKeeps(sc: Scenario, st: State, trade: ReplayTrade, k: nat, now: int)
    requires Counted(st) && Disjoint(st, k) && Mirrors(sc, st, now) && now <= trade.ts && st.pending.None?
    ensures Drain(sc, st, trade, k).Ok? ==>
      var next := Drain(sc, st, trade, k).value;
      && Counted(next) && Disjoint(next, k) && Mirrors(sc, next, trade.ts)
      && next.pending.None? && next.queue == []
    ensures Drain(sc, st, trade, k).Raised? ==> Foreign(sc, Drain(sc, st, trade, k).fault)
    decreases |st.queue|
  {
    if st.queue != [] {
      var popped := st.(queue := st.queue[1..]);
      assert [st.queue[0]] + popped.queue == st.queue;
      TakeKeepsQueue(sc, popped, st.queue[0], trade, k);
      TakeKeeps(sc, popped, st.queue[0], trade, k, now);
      if Take(sc, popped, st.queue[0], trade, k).Ok? {
        DrainKeeps(sc, Take(sc, popped, st.queue[0], trade, k).value, trade, k, trade.ts);
      }
    }
  }

  lemma {:induction false} EvalKeeps(sc: Scenario, st: State, trade: ReplayTrade, k: nat)
    requires Counted(st) && Disjoint(st, k) && Mirrors(sc, st, trade.ts)
    ensures
      var next := RiskEval(sc, st, trade, k);
      Counted(next) && Disjoint(next, k) && Mirrors(sc, next, trade.ts) && next.queue == st.queue
  {
  }

  lemma {:induction false} FillKeeps(sc: Scenario, st: State, trade: ReplayTrade, k: nat, now: int)
    requires Counted(st) && Disjoint(st, k) && Mirrors(sc, st, now) && now <= trade.ts
    requires st.pending.Some? ==> st.pending.value.reason != "strategy_exit"
    ensures FillPendingExit(sc, st, trade, k).Ok?
    ensures
      var next := FillPendingExit(sc, st, trade, k).value;
      && Counted(next) && Disjoint(next, k) && Mirrors(sc, next, trade.ts) && next.pending.None?
      && next.queue == st.queue
  {
    if st.pending.Some? {
      FinishCounts(sc, st, st.position.value, st.pending.value, trade.ts, k, trade.price);
      FinishMirrors(sc, st, st.position.value, st.pending.value, now, trade.ts, k, trade.price);
    }
  }

  predicate RiskReason(reason: string) {
    reason == "stop_loss" || reason == "trailing_stop" || reason == "take_profit"
  }

  /** Time and index of the last of the first `n` trades; before any trade, those of the first. */
  function Now(env: Env, n: nat): int
    requires n <= |env.trades|
  {
    if env.trades == [] then 0 else env.trades[Last(n)].ts
  }

  function Last(n: nat): nat {
    if n == 0 then 0 else n - 1
  }

  /** A pending exit was triggered by the trade just seen. */
  predicate JustTriggered(env: Env, st: State, n: nat)
    requires n <= |env.trades|
  {
    st.pending.Some? ==>
      var p := st.pending.value;
      && n > 0 && RiskReason(p.reason)
      && p.triggerTs == env.trades[n - 1].ts && p.triggerIndex == Some(n - 1)
      && p.triggerPrice == env.trades[n - 1].price
  }

  /** The books after `n` trades: balanced, disjoint, mirrored, with an empty queue. */
  predicate Balanced(env: Env, st: State, n: nat)
    requires n <= |env.trades|
  {
    && Counted(st) && st.queue == [] && st.stats.unfilled == 0
    && Disjoint(st, Last(n)) && Mirrors(env.scenario, st, Now(env, n)) && JustTriggered(env, st, n)
  }

  lemma {:induction false} LaterKeeps(sc: Scenario, st: State, j: nat, k: nat, now: int, ts: int)
    requires Disjoint(st, j) && j <= k && Mirrors(sc, st, now) && now <= ts
    ensures Disjoint(st, k) && Mirrors(sc, st, ts)
  {
  }

  lemma {:induction false} TakeKeepsUnfilled(sc: Scenario, st: State, d: Decision, trade: ReplayTrade, k: nat)
    ensures Take(sc, st, d, trade, k).Ok? ==> Take(sc, st, d, trade, k).value.stats.unfilled == st.stats.unfilled
  {
  }

  lemma {:induction false} DrainKeepsUnfilled(sc: Scenario, st: State, trade: ReplayTrade, k: nat)
    ensures Drain(sc, st, trade, k).Ok? ==> Drain(sc, st, trade, k).value.stats.unfilled == st.stats.unfilled
    decreases |st.queue|
  {
    if st.queue != [] {
      var popped := st.(queue := st.queue[1..]);
      TakeKeepsQueue(sc, popped, st.queue[0], trade, k);
      TakeKeepsUnfilled(sc, popped, st.queue[0], trade, k);
      if Take(sc, popped, st.queue[0], trade, k).Ok? {
        DrainKeepsUnfilled(sc, Take(sc, popped, st.queue[0], trade, k).value, trade, k);
      }
    }
  }

  lemma {:induction false} AdvanceKeepsUnfilled(env: Env, st: State, cutoff: int)
    ensures Advance(env, st, cutoff).Ok? ==> Advance(env, st, cutoff).value.stats.unfilled == st.stats.unfilled
    decreases |env.candles| - st.candleI
  {
    if st.candleI < |env.candles| && env.candles[st.candleI].closeTime <= cutoff && Confirm(env, st).Ok? {
      ConfirmShape(env, st);
      AdvanceKeepsUnfilled(env, Confirm(env, st).value, cutoff);
    }
  }

  lemma {:induction false} EvalTriggers(env: Env, st: State, n: nat)
    requires n < |env.trades| && st.pending.None?
    ensures JustTriggered(env, RiskEval(env.scenario, st, env.trades[n], n), n + 1)
  {
  }

  /** The stages of a trade after its candles are confirmed keep the books. */
  lemma {:induction false} TradeKeeps(env: Env, st: State, n: nat, now: int)
    requires n < |env.trades| && now <= env.trades[n].ts
    requires Counted(st) && Disjoint(st, n) && Mirrors(env.scenario, st, now) && st.stats.unfilled == 0
    requires st.pending.Some? ==> RiskReason(st.pending.value.reason)
    ensures
      var trade, sc := env.trades[n], env.scenario;
      && FillPendingExit(sc, st, trade, n).Ok?
      && var drained := Drain(sc, FillPendingExit(sc, st, trade, n).value, trade, n);
         && (drained.Ok? ==> Balanced(env, RiskEval(sc, drained.value, trade, n), n + 1))
         && (drained.Raised? ==> Foreign(sc, drained.fault))
  {
    hide Drain, Mirrors;
    var trade, sc := env.trades[n], env.scenario;
    FillKeeps(sc, st, trade, n, now);
    var filled := FillPendingExit(sc, st, trade, n).value;
    DrainKeeps(sc, filled, trade, n, trade.ts);
    DrainKeepsUnfilled(sc, filled, trade, n);
    if Drain(sc, filled, trade, n).Ok? {
      EvalKeeps(sc, Drain(sc, filled, trade, n).value, trade, n);
      EvalTriggers(env, Drain(sc, filled, trade, n).value, n);
    }
  }

  /** One trade keeps the books, and can only fail for a reason outside them. */
  lemma {:induction false} StepKeeps(env: Env, st: State, n: nat)
    requires n < |env.trades| && Sorted(env) && Balanced(env, st, n)
    ensures Step(env, st, n).Ok? ==> Balanced(env, Step(env, st, n).value, n + 1)
    ensures Step(env, st, n).Raised? ==> Foreign(env.scenario, Step(env, st, n).fault)
  {
    var ts, now := env.trades[n].ts, Now(env, n);
    LaterKeeps(env.scenario, st, Last(n), n, now, now);
    AdvanceKeeps(env, st, ts, n, now);
    AdvanceKeepsUnfilled(env, st, ts);
    if Advance(env, st, ts).Ok? {
      TradeKeeps(env, Advance(env, st, ts).value, n, now);
    }
  }

  lemma {:induction false} StartBalanced(env: Env)
    ensures Balanced(env, Start(env), 0)
  {
  }

  /** After any number of trades the books balance, or a fault from outside them has ended the run. */
  predicate Keeps(env: Env, r: Outcome<State>, n: nat)
    requires n <= |env.trades|
  {
    match r
    case Ok(st) => Balanced(env, st, n)
    case Raised(fault) => Foreign(env.scenario, fault)
  }

  lemma {:induction false} AfterKeeps(env: Env, n: nat)
    requires n <= |env.trades| && Sorted(env)
    ensures Keeps(env, After(env, n), n)
  {
    hide Step, Balanced, Foreign;
    if n == 0 {
      StartBalanced(env);
    } else {
      AfterKeeps(env, n - 1);
      if After(env, n - 1).Ok? {
        AfterOne(env, After(env, n - 1).value, n - 1);
        StepKeeps(env, After(env, n - 1).value, n - 1);
      } else {
        AfterRaised(env, n - 1);
      }
    }
  }

  /** The equity, peak and daily figure behind every entry of a dynamic replay are those of the ledger so far: initial
      capital plus the net of the closed records, its highest value, and the net of the records closed that UTC day. */
  lemma {:induction false} EntryReadsLedger(sc: Scenario, st: State, now: int, d: Decision, ts: int)
    requires sc.dynamic && Mirrors(sc, st, now) && now <= ts
    ensures
      EvaluateRisk(sc, RollDay(st, ts), d)
      == Evaluate(Exact, sc.risk, TradeProposal(Portfolio.Buy, sc.intensity, d.referencePrice, d.atr),
                  RiskState(0, DayNetOf(st.records, UtcDay(ts)), PeakOf(sc.risk.capital, st.records),
                            sc.risk.capital + NetOf(st.records), false))
  {
    RollMirrors(sc, st, now, ts);
  }

  /** A complete run's books. */
  predicate Settled(env: Env, last: State) {
    && Counted(last) && last.queue == [] && last.position.None? && last.pending.None?
    && Disjoint(last, Last(|env.trades|)) && Mirrors(env.scenario, last, Now(env, |env.trades|))
  }

  /** Closing what is open at the end, at the last trade's price or at the trigger's, settles the books. */
  lemma {:induction false} FinishSettles(env: Env, st: State, p: PendingExit)
    requires env.trades != [] && Counted(st) && st.queue == [] && st.position.Some? && p.reason != "strategy_exit"
    requires Disjoint(st, |env.trades| - 1) && Mirrors(env.scenario, st, env.trades[|env.trades| - 1].ts)
    ensures
      var last := env.trades[|env.trades| - 1];
      Settled(env, Finish(env.scenario, st, st.position.value, p, last.ts, |env.trades| - 1, last.price))
  {
    var k := |env.trades| - 1;
    var last := env.trades[k];
    FinishCounts(env.scenario, st, st.position.value, p, last.ts, k, last.price);
    FinishMirrors(env.scenario, st, st.position.value, p, last.ts, last.ts, k, last.price);
  }

  lemma {:induction false} PendingSettles(env: Env, st: State)
    requires Counted(st) && st.queue == [] && JustTriggered(env, st, |env.trades|) && st.pending.Some?
    requires Disjoint(st, Last(|env.trades|)) && Mirrors(env.scenario, st, Now(env, |env.trades|))
    ensures Settle(env, st).Ok? && Settled(env, Settle(env, st).value)
  {
    FinishSettles(env, st, st.pending.value);
    var k := |env.trades| - 1;
    var last := env.trades[k];
    var edged := Finish(env.scenario, st, st.position.value, st.pending.value, last.ts, k, last.price);
    assert FillPendingEdge(env, st) == Ok(edged);
    assert CloseAtEnd(env, edged) == Ok(edged);
  }

  lemma {:induction false} OpenSettles(env: Env, st: State)
    requires Counted(st) && st.queue == [] && st.pending.None? && st.position.Some? && env.trades != []
    requires Disjoint(st, Last(|env.trades|)) && Mirrors(env.scenario, st, Now(env, |env.trades|))
    ensures Settle(env, st).Ok? && Settled(env, Settle(env, st).value)
  {
    var k := |env.trades| - 1;
    var last := env.trades[k];
    FinishSettles(env, st, PendingExit("end_of_dataset", last.ts, Some(k), last.price, last.price));
    assert FillPendingEdge(env, st) == Ok(st);
  }

  lemma {:induction false} SettleKeeps(env: Env, st: State)
    requires Counted(st) && st.queue == [] && JustTriggered(env, st, |env.trades|)
    requires Disjoint(st, Last(|env.trades|)) && Mirrors(env.scenario, st, Now(env, |env.trades|))
    requires env.trades == [] ==> st.position.None?
    ensures Settle(env, st).Ok? && Settled(env, Settle(env, st).value)
  {
    if st.pending.Some? {
      PendingSettles(env, st);
    } else if st.position.Some? {
      OpenSettles(env, st);
    }
  }

  lemma {:induction false} AdvanceOpensNothing(env: Env, st: State, cutoff: int)
    requires st.position.None?
    ensures Advance(env, st, cutoff).Ok? ==> Advance(env, st, cutoff).value.position.None?
    decreases |env.candles| - st.candleI
  {
    if st.candleI < |env.candles| && env.candles[st.candleI].closeTime <= cutoff && Confirm(env, st).Ok? {
      ConfirmShape(env, st);
      AdvanceOpensNothing(env, Confirm(env, st).value, cutoff);
    }
  }

  lemma {:induction false} QueueCounts(sc: Scenario, st: State, k: nat, now: int)
    requires Counted(st) && Disjoint(st, k) && Mirrors(sc, st, now)
    ensures
      var next := LeaveUnfilled(st);
      Counted(next) && Disjoint(next, k) && Mirrors(sc, next, now)
  {
  }

  lemma {:induction false} SweepKeeps(env: Env, st: State)
    requires Balanced(env, st, |env.trades|) && (env.trades == [] ==> st.position.None?)
    ensures Sweep(env, st).Ok? ==> Settled(env, Sweep(env, st).value)
    ensures Sweep(env, st).Raised? ==> Sweep(env, st).fault == ProviderRefused
  {
    var n := |env.trades|;
    AdvanceKeeps(env, st, SWEEP_CUTOFF, Last(n), Now(env, n));
    if env.trades == [] {
      AdvanceOpensNothing(env, st, SWEEP_CUTOFF);
    }
    if Advance(env, st, SWEEP_CUTOFF).Ok? {
      var swept := Advance(env, st, SWEEP_CUTOFF).value;
      QueueCounts(env.scenario, swept, Last(n), Now(env, n));
      SettleKeeps(env, LeaveUnfilled(swept));
    }
  }

  /** Every complete replay settles: each decision is filled, dropped, rejected or left unfilled, exactly one; filled
      decisions are the entries (one per closed trade) and the strategy exits; positions never overlap; and the only
      failures are a refusing provider, an unknown action, or an unstopped approval. */
  lemma {:induction false} RunSettles(env: Env)
    requires Sorted(env)
    ensures Run(env).Ok? ==>
      var last := Run(env).value;
      && Settled(env, last)
      && last.stats.total == last.stats.filled + last.stats.dropped + last.stats.rejected + last.stats.unfilled
      && last.stats.filled == last.stats.closedTrades + StrategyExits(last.records)
      && last.stats.closedTrades == |last.records|
      && (env.scenario.dynamic ==> last.realizedTotal == NetOf(last.records))
    ensures Run(env).Raised? ==> Foreign(env.scenario, Run(env).fault)
  {
    AfterKeeps(env, |env.trades|);
    if After(env, |env.trades|).Ok? {
      SweepKeeps(env, After(env, |env.trades|).value);
    }
  }
}
