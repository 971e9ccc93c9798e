/** What a dynamic replay sizes its entries on: the ledger as it stood at each entry, over whole runs. */
module ReplaySizing {
  import opened Numerics
  import opened Risk
  import opened Replay
  import opened ReplayCausality
  import opened ReplayLedger
  import Portfolio

  /** The verdict on an entry that sees only the ledger before it: its equity is the initial capital plus the net of the
      earlier records, its peak their highest equity, its day figure the net of those closed on the entry's UTC day. */
  function LedgerVerdict(sc: Scenario, before: seq<Record>, p: Position): RiskVerdict {
    Evaluate(Exact, sc.risk, TradeProposal(Portfolio.Buy, sc.intensity, p.referencePrice, Some(p.atr)),
             RiskState(0, DayNetOf(before, UtcDay(p.fillTs)), PeakOf(sc.risk.capital, before),
                       sc.risk.capital + NetOf(before), false))
  }

  /** The position has the size and the levels of that verdict. */
  predicate SizedOn(sc: Scenario, before: seq<Record>, p: Position) {
    var v := LedgerVerdict(sc, before, p);
    && v.approved && v.size.Some? && p.quantity == v.size.value.quantity
    && v.stopLoss == Some(p.initialStop) && v.takeProfit == Some(p.initialTarget)
  }

  predicate AllSized(sc: Scenario, rs: seq<Record>) {
    forall i :: 0 <= i < |rs| ==> SizedOn(sc, rs[..i], rs[i].entry)
  }

  predicate Sized(sc: Scenario, st: State) {
    && AllSized(sc, st.records)
    && (st.position.Some? ==> SizedOn(sc, st.records, st.position.value))
  }

  /** What moves in an open position never touches its size or its initial levels. */
  predicate SameEntry(p: Position, q: Position) {
    && p.referencePrice == q.referencePrice && p.atr == q.atr && p.fillTs == q.fillTs
    && p.quantity == q.quantity && p.initialStop == q.initialStop && p.initialTarget == q.initialTarget
  }

  lemma {:induction false} SameEntrySized(sc: Scenario, before: seq<Record>, p: Position, q: Position)
    requires SizedOn(sc, before, p) && SameEntry(p, q)
    ensures SizedOn(sc, before, q)
  {
    hide Evaluate;
  }

  lemma {:induction false} AppendSized(sc: Scenario, rs: seq<Record>, r: Record)
    requires AllSized(sc, rs) && SizedOn(sc, rs, r.entry)
    ensures AllSized(sc, rs + [r])
  {
    hide SizedOn;
    forall i | 0 <= i < |rs| + 1
      ensures SizedOn(sc, (rs + [r])[..i], (rs + [r])[i].entry)
    {
      assert (rs + [r])[..i] == rs[..i];
    }
  }

  // ---- stage by stage

  lemma {:induction false} FinishSized(
    sc: Scenario, st: State, pos: Position, p: PendingExit, ts: int, k: nat, price: real)
    requires Sized(sc, st) && st.position.Some? && SameEntry(st.position.value, pos)
    ensures Sized(sc, Finish(sc, st, pos, p, ts, k, price))
  {
    hide SizedOn;
    var record := CloseRecord(sc, pos, p, ts, k, price);
    SameEntrySized(sc, st.records, st.position.value, pos);
    AppendSized(sc, st.records, record);
    assert Finish(sc, st, pos, p, ts, k, price).records == st.records + [record];
  }

  /** The entry itself: what the engine evaluates is the ledger's verdict. */
  lemma {:induction false} OpenedSized(
    sc: Scenario, st: State, d: Decision, trade: ReplayTrade, k: nat, now: int)
    requires sc.dynamic && Mirrors(sc, st, now) && now <= trade.ts && d.atr.Some?
    requires
      var v := EvaluateRisk(sc, RollDay(st, trade.ts), d);
      v.approved && v.size.Some? && v.stopLoss.Some? && v.takeProfit.Some?
    ensures
      var v := EvaluateRisk(sc, RollDay(st, trade.ts), d);
      SizedOn(sc, st.records, Opened(sc, d, d.atr.value, trade, k, v.size.value.quantity, v.stopLoss.value,
                                     v.takeProfit.value))
  {
    EntryReadsLedger(sc, st, now, d, trade.ts);
  }

  lemma {:induction false} BuySized(sc: Scenario, st: State, d: Decision, trade: ReplayTrade, k: nat, now: int)
    requires sc.dynamic && Sized(sc, st) && Mirrors(sc, st, now) && now <= trade.ts
    ensures TakeBuy(sc, st, d, trade, k).Ok? ==> Sized(sc, TakeBuy(sc, st, d, trade, k).value)
  {
    hide SizedOn, Evaluate, Mirrors;
    if st.position.None? && d.atr.Some? {
      var v := EvaluateRisk(sc, RollDay(st, trade.ts), d);
      if v.approved && v.size.Some? && v.stopLoss.Some? && v.takeProfit.Some? {
        OpenedSized(sc, st, d, trade, k, now);
      }
    }
  }

  lemma {:induction false} SellSized(sc: Scenario, st: State, d: Decision, trade: ReplayTrade, k: nat)
    requires Sized(sc, st)
    ensures Sized(sc, TakeSell(sc, st, d, trade, k))
  {
    hide SizedOn, Finish;
    if st.position.Some? {
      FinishSized(sc, st, Seen(st.position.value, trade.price),
                  PendingExit("strategy_exit", d.signalTs, None, trade.price, d.referencePrice), trade.ts, k,
                  trade.price);
    }
  }

  lemma {:induction false} DrainSized(sc: Scenario, st: State, trade: ReplayTrade, k: nat, now: int)
    requires sc.dynamic && Sized(sc, st)
    requires Counted(st) && Disjoint(st, k) && Mirrors(sc, st, now) && now <= trade.ts && st.pending.None?
    ensures Drain(sc, st, trade, k).Ok? ==> Sized(sc, Drain(sc, st, trade, k).value)
    decreases |st.queue|
  {
    hide SizedOn, TakeBuy, TakeSell, Mirrors, Disjoint;
    if st.queue != [] {
      var popped, d := st.(queue := st.queue[1..]), st.queue[0];
      assert [d] + popped.queue == st.queue;
      PoppedMirrors(sc, st, k, now);
      TakeKeepsQueue(sc, popped, d, trade, k);
      TakeKeeps(sc, popped, d, trade, k, now);
      BuySized(sc, popped, d, trade, k, now);
      SellSized(sc, popped, d, trade, k);
      if Take(sc, popped, d, trade, k).Ok? {
        DrainSized(sc, Take(sc, popped, d, trade, k).value, trade, k, trade.ts);
      }
    }
  }

  lemma {:induction false} PoppedMirrors(sc: Scenario, st: State, k: nat, now: int)
    requires st.queue != [] && Disjoint(st, k) && Mirrors(sc, st, now)
    ensures Disjoint(st.(queue := st.queue[1..]), k) && Mirrors(sc, st.(queue := st.queue[1..]), now)
  {
  }

  lemma {:induction false} ConfirmSized(env: Env, st: State)
    requires Sized(env.scenario, st) && st.candleI < |env.candles| && Confirm(env, st).Ok?
    ensures Sized(env.scenario, Confirm(env, st).value)
  {
    hide SizedOn;
    var next := Confirm(env, st).value;
    if st.position.Some? {
      SameEntrySized(env.scenario, st.records, st.position.value, next.position.value);
    }
  }

  lemma {:induction false} AdvanceSized(env: Env, st: State, cutoff: int)
    requires Sized(env.scenario, st) && Advance(env, st, cutoff).Ok?
    ensures Sized(env.scenario, Advance(env, st, cutoff).value)
    decreases |env.candles| - st.candleI
  {
    hide Sized, Confirm;
    if st.candleI < |env.candles| && env.candles[st.candleI].closeTime <= cutoff {
      AdvanceOnce(env, st, cutoff);
      ConfirmSized(env, st);
      AdvanceSized(env, Confirm(env, st).value, cutoff);
    }
  }

  lemma {:induction false} EvalSized(sc: Scenario, st: State, trade: ReplayTrade, k: nat)
    requires Sized(sc, st)
    ensures Sized(sc, RiskEval(sc, st, trade, k))
  {
    hide SizedOn;
    if st.position.Some? {
      SameEntrySized(sc, st.records, st.position.value, RiskEval(sc, st, trade, k).position.value);
    }
  }

  lemma {:induction false} FillSized(sc: Scenario, st: State, trade: ReplayTrade, k: nat)
    requires Sized(sc, st) && FillPendingExit(sc, st, trade, k).Ok?
    ensures Sized(sc, FillPendingExit(sc, st, trade, k).value)
  {
    hide SizedOn, Finish;
    if st.pending.Some? {
      FinishSized(sc, st, st.position.value, st.pending.value, trade.ts, k, trade.price);
    }
  }

  lemma {:induction false} StepSized(env: Env, st: State, n: nat)
    requires n < |env.trades| && Sorted(env) && env.scenario.dynamic
    requires Balanced(env, st, n) && Sized(env.scenario, st) && Step(env, st, n).Ok?
    ensures Sized(env.scenario, Step(env, st, n).value)
  {
    hide Sized, Advance, FillPendingExit, Drain, RiskEval, Mirrors, Disjoint;
    var trade, sc, now := env.trades[n], env.scenario, Now(env, n);
    LaterKeeps(sc, st, Last(n), n, now, now);
    AdvanceKeeps(env, st, trade.ts, n, now);
    AdvanceSized(env, st, trade.ts);
    var confirmed := Advance(env, st, trade.ts).value;
    FillKeeps(sc, confirmed, trade, n, now);
    FillSized(sc, confirmed, trade, n);
    var filled := FillPendingExit(sc, confirmed, trade, n).value;
    DrainSized(sc, filled, trade, n, trade.ts);
    EvalSized(sc, Drain(sc, filled, trade, n).value, trade, n);
  }

  lemma {:induction false} StartSized(env: Env)
    ensures Sized(env.scenario, Start(env))
  {
  }

  lemma {:induction false} AfterSized(env: Env, n: nat)
    requires n <= |env.trades| && Sorted(env) && env.scenario.dynamic
    ensures After(env, n).Ok? ==> Sized(env.scenario, After(env, n).value)
  {
    hide Step, Sized, Balanced, Foreign;
    if n == 0 {
      StartSized(env);
    } else {
      AfterSized(env, n - 1);
      AfterKeeps(env, n - 1);
      if After(env, n - 1).Raised? {
        AfterRaised(env, n - 1);
      } else {
        AfterOne(env, After(env, n - 1).value, n - 1);
        if Step(env, After(env, n - 1).value, n - 1).Ok? {
          StepSized(env, After(env, n - 1).value, n - 1);
        }
      }
    }
  }

  lemma {:induction false} SettleSized(env: Env, st: State)
    requires Sized(env.scenario, st) && Settle(env, st).Ok?
    ensures Sized(env.scenario, Settle(env, st).value)
  {
    hide SizedOn, Finish;
    var sc := env.scenario;
    if st.pending.Some? {
      var p := st.pending.value;
      FinishSized(sc, st, st.position.value, p, p.triggerTs, p.triggerIndex.value, p.triggerPrice);
    }
    var edged := FillPendingEdge(env, st).value;
    if edged.position.Some? {
      var last, k := env.trades[|env.trades| - 1], |env.trades| - 1;
      FinishSized(sc, edged, edged.position.value,
                  PendingExit("end_of_dataset", last.ts, Some(k), last.price, last.price), last.ts, k, last.price);
    }
  }

  lemma {:induction false} UnqueuedSized(sc: Scenario, st: State)
    requires Sized(sc, st)
    ensures Sized(sc, LeaveUnfilled(st))
  {
  }

  /** In a dynamic replay every entry is sized on the equity of that moment: for each record of a complete run,
      quantity, stop and target are those the risk engine gives for the initial capital plus the net of all earlier
      records, their peak, and the net of those closed on the entry's UTC day. */
  lemma {:induction false} EntriesSizedOnLedger(env: Env, i: nat)
    requires Sorted(env) && env.scenario.dynamic
    ensures Run(env).Ok? && i < |Run(env).value.records| ==>
      var rs := Run(env).value.records;
      SizedOn(env.scenario, rs[..i], rs[i].entry)
  {
    hide Advance, Settle, After, SizedOn;
    AfterSized(env, |env.trades|);
    if Run(env).Ok? {
      var st := After(env, |env.trades|).value;
      AdvanceSized(env, st, SWEEP_CUTOFF);
      var swept := Advance(env, st, SWEEP_CUTOFF).value;
      UnqueuedSized(env.scenario, swept);
      SettleSized(env, LeaveUnfilled(swept));
    }
  }
}
