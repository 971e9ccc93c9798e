/** No lookahead: what the replay has done after a trade depends on nothing later than that trade. */
module ReplayCausality {
  import opened Numerics
  import opened Replay
  import Indicators

  predicate SortedRows(rows: seq<CandleRow>) {
    forall i, j :: 0 <= i < j < |rows| ==> rows[i].closeTime < rows[j].closeTime
  }

  predicate SortedTrades(trades: seq<ReplayTrade>) {
    forall i, j :: 0 <= i < j < |trades| ==> trades[i].ts <= trades[j].ts
  }

  /** How many rows have closed by `ts`. */
  function Closed(rows: seq<CandleRow>, ts: int): (n: nat)
    ensures n <= |rows|
  {
    Bisect(rows, ts, 0, |rows|)
  }

  /** The rows that have closed by `ts`. */
  function Visible(rows: seq<CandleRow>, ts: int): seq<CandleRow> {
    rows[..Closed(rows, ts)]
  }

  lemma {:induction false} BisectSpec(rows: seq<CandleRow>, ts: int, lo: nat, hi: nat)
    requires SortedRows(rows) && lo <= hi <= |rows|
    requires forall i :: 0 <= i < lo ==> rows[i].closeTime <= ts
    requires forall i :: hi <= i < |rows| ==> rows[i].closeTime > ts
    ensures forall i :: 0 <= i < Bisect(rows, ts, lo, hi) ==> rows[i].closeTime <= ts
    ensures forall i :: Bisect(rows, ts, lo, hi) <= i < |rows| ==> rows[i].closeTime > ts
    decreases hi - lo
  {
    if lo < hi {
      var mid := (lo + hi) / 2;
      if ts < rows[mid].closeTime {
        BisectSpec(rows, ts, lo, mid);
      } else {
        BisectSpec(rows, ts, mid + 1, hi);
      }
    }
  }

  /** Halving finds exactly the rows that have closed. */
  lemma {:induction false} ClosedSpec(rows: seq<CandleRow>, ts: int)
    requires SortedRows(rows)
    ensures forall i :: 0 <= i < |rows| ==> (i < Closed(rows, ts) <==> rows[i].closeTime <= ts)
  {
    BisectSpec(rows, ts, 0, |rows|);
  }

  lemma {:induction false} ClosedMonotone(rows: seq<CandleRow>, t: int, ts: int)
    requires SortedRows(rows) && t <= ts
    ensures Closed(rows, t) <= Closed(rows, ts)
  {
    ClosedSpec(rows, t);
    ClosedSpec(rows, ts);
    var n := Closed(rows, t);
    if n > 0 {
      assert rows[n - 1].closeTime <= t;
    }
  }

  lemma {:induction false} EarlierVisible(a: seq<CandleRow>, b: seq<CandleRow>, t: int, ts: int)
    requires SortedRows(a) && SortedRows(b) && t <= ts && Visible(a, ts) == Visible(b, ts)
    ensures Closed(a, t) == Closed(b, t) && Visible(a, t) == Visible(b, t)
  {
    ClosedSpec(a, t);
    ClosedSpec(b, t);
    ClosedMonotone(a, t, ts);
    ClosedMonotone(b, t, ts);
    var n := Closed(a, ts);
    assert |Visible(a, ts)| == n && |Visible(b, ts)| == Closed(b, ts);
    assert forall i :: 0 <= i < n ==> a[i] == Visible(a, ts)[i] == Visible(b, ts)[i] == b[i];
    var p, q := Closed(a, t), Closed(b, t);
    assert p < n ==> a[p] == b[p];
    assert q < n ==> a[q] == b[q];
  }

  lemma {:induction false} SameContext(a: seq<CandleRow>, b: seq<CandleRow>, t: int, ts: int)
    requires SortedRows(a) && SortedRows(b) && t <= ts && Visible(a, ts) == Visible(b, ts)
    ensures ContextAt(a, t) == ContextAt(b, t)
  {
    EarlierVisible(a, b, t, ts);
    var n := Closed(a, t);
    if n > 0 {
      assert a[n - 1] == Visible(a, t)[n - 1] == Visible(b, t)[n - 1] == b[n - 1];
    }
  }

  /** The context a decision is shown is the last row that has closed by the decision, if any has. */
  lemma {:induction false} ContextIsCausal(rows: seq<CandleRow>, ts: int)
    requires SortedRows(rows)
    ensures ContextAt(rows, ts).Some? ==> ContextAt(rows, ts).value in rows && ContextAt(rows, ts).value.closeTime <= ts
    ensures forall r :: r in rows && r.closeTime <= ts ==>
      ContextAt(rows, ts).Some? && r.closeTime <= ContextAt(rows, ts).value.closeTime
  {
    ClosedSpec(rows, ts);
    var n := Closed(rows, ts);
    forall r | r in rows && r.closeTime <= ts
      ensures n > 0 && r.closeTime <= rows[n - 1].closeTime
    {
      var i :| 0 <= i < |rows| && rows[i] == r;
      assert i < n;
    }
  }

  predicate Sorted(env: Env) {
    SortedRows(env.candles) && SortedRows(env.h1) && SortedRows(env.h4) && SortedTrades(env.trades)
  }

  /** Two feeds that cannot be told apart at time `ts`. */
  ghost predicate AgreeUntil(a: Env, b: Env, ts: int) {
    && a.scenario == b.scenario && a.provider == b.provider
    && Visible(a.candles, ts) == Visible(b.candles, ts)
    && Visible(a.h1, ts) == Visible(b.h1, ts)
    && Visible(a.h4, ts) == Visible(b.h4, ts)
  }

  lemma {:induction false} AgreeEarlier(a: Env, b: Env, t: int, ts: int)
    requires Sorted(a) && Sorted(b) && AgreeUntil(a, b, ts) && t <= ts
    ensures AgreeUntil(a, b, t) && Closed(a.candles, t) == Closed(b.candles, t)
  {
    EarlierVisible(a.candles, b.candles, t, ts);
    EarlierVisible(a.h1, b.h1, t, ts);
    EarlierVisible(a.h4, b.h4, t, ts);
  }

  lemma {:induction false} SameAtr(a: Env, b: Env, ts: int, i: nat)
    requires a.scenario == b.scenario && Visible(a.candles, ts) == Visible(b.candles, ts)
    requires i < Closed(a.candles, ts)
    ensures i < Closed(b.candles, ts) && a.candles[i] == b.candles[i] && AtrOf(a, i) == AtrOf(b, i)
  {
    var n := Closed(a.candles, ts);
    assert |Visible(a.candles, ts)| == n && |Visible(b.candles, ts)| == Closed(b.candles, ts);
    assert forall k :: 0 <= k < n ==>
      a.candles[k] == Visible(a.candles, ts)[k] == Visible(b.candles, ts)[k] == b.candles[k];
    var x, y := DomainCandles(a.candles), DomainCandles(b.candles);
    assert x[..i + 1] == y[..i + 1];
    Indicators.AtrCausal(Exact, x, y, a.scenario.atrPeriod, i);
  }

  lemma {:induction false} SameInput(a: Env, b: Env, ts: int, i: nat)
    requires Sorted(a) && Sorted(b) && AgreeUntil(a, b, ts) && i < Closed(a.candles, ts)
    ensures i < Closed(b.candles, ts) && InputAt(a, i) == InputAt(b, i)
  {
    SameAtr(a, b, ts, i);
    ClosedSpec(a.candles, ts);
    SameContext(a.h1, b.h1, a.candles[i].closeTime, ts);
    SameContext(a.h4, b.h4, a.candles[i].closeTime, ts);
  }

  lemma {:induction false} SameConfirm(a: Env, b: Env, st: State, ts: int)
    requires Sorted(a) && Sorted(b) && AgreeUntil(a, b, ts) && st.candleI < Closed(a.candles, ts)
    ensures st.candleI < Closed(b.candles, ts) && a.candles[st.candleI] == b.candles[st.candleI]
    ensures Confirm(a, st) == Confirm(b, st)
  {
    SameInput(a, b, ts, st.candleI);
    SameAtr(a, b, ts, st.candleI);
  }

  /** One step of the sweep: there is a candle left to confirm exactly while fewer than the closed ones are. */
  lemma {:induction false} AdvanceStep(env: Env, st: State, ts: int)
    requires SortedRows(env.candles)
    ensures
      Advance(env, st, ts) ==
      if st.candleI >= Closed(env.candles, ts) then Ok(st)
      else if Confirm(env, st).Raised? then Raised(Confirm(env, st).fault)
      else Advance(env, Confirm(env, st).value, ts)
  {
    ClosedSpec(env.candles, ts);
  }

  lemma {:induction false} SameAdvance(a: Env, b: Env, st: State, ts: int)
    requires Sorted(a) && Sorted(b) && AgreeUntil(a, b, ts)
    ensures Advance(a, st, ts) == Advance(b, st, ts)
    decreases |a.candles| - st.candleI
  {
    AdvanceStep(a, st, ts);
    AdvanceStep(b, st, ts);
    assert Closed(a.candles, ts) == Closed(b.candles, ts) by {
      assert |Visible(a.candles, ts)| == |Visible(b.candles, ts)|;
    }
    if st.candleI < Closed(a.candles, ts) {
      SameConfirm(a, b, st, ts);
      if Confirm(a, st).Ok? {
        SameAdvance(a, b, Confirm(a, st).value, ts);
      }
    }
  }

  lemma {:induction false} SameStep(a: Env, b: Env, st: State, k: nat)
    requires Sorted(a) && Sorted(b) && k < |a.trades| && k < |b.trades|
    requires a.trades[k] == b.trades[k] && AgreeUntil(a, b, a.trades[k].ts)
    ensures Step(a, st, k) == Step(b, st, k)
  {
    hide Advance, FillPendingExit, Drain, RiskEval;
    SameAdvance(a, b, st, a.trades[k].ts);
  }

  lemma {:induction false} SameStart(a: Env, b: Env)
    requires a.scenario == b.scenario
    ensures After(a, 0) == After(b, 0)
  {
  }

  /** No lookahead: two feeds with the same trades up to `k`, and the same candles of all three timeframes among those
      closed by that trade, leave the engine in the same state after it, whatever comes later in either. */
  lemma {:induction false} NoLookahead(a: Env, b: Env, k: nat)
    requires Sorted(a) && Sorted(b) && k < |a.trades| && k < |b.trades|
    requires a.trades[..k + 1] == b.trades[..k + 1] && AgreeUntil(a, b, a.trades[k].ts)
    ensures After(a, k + 1) == After(b, k + 1)
  {
    hide Step, After;
    var ts := a.trades[k].ts;
    assert a.trades[k] == a.trades[..k + 1][k] == b.trades[k];
    SameStart(a, b);
    if k > 0 {
      assert a.trades[..k] == a.trades[..k + 1][..k] == b.trades[..k];
      AgreeEarlier(a, b, a.trades[k - 1].ts, ts);
      NoLookahead(a, b, k - 1);
    }
    if After(a, k).Ok? {
      SameStep(a, b, After(a, k).value, k);
      AfterOne(a, After(a, k).value, k);
      AfterOne(b, After(a, k).value, k);
    } else {
      AfterRaised(a, k);
      AfterRaised(b, k);
    }
  }

  // ---- the ledger only grows

  lemma {:induction false} AdvanceKeepsRecords(env: Env, st: State, cutoff: int)
    ensures Advance(env, st, cutoff).Ok? ==> Advance(env, st, cutoff).value.records == st.records
    decreases |env.candles| - st.candleI
  {
    if st.candleI < |env.candles| && env.candles[st.candleI].closeTime <= cutoff && Confirm(env, st).Ok? {
      AdvanceKeepsRecords(env, Confirm(env, st).value, cutoff);
    }
  }

  lemma {:induction false} TakeExtendsRecords(sc: Scenario, st: State, d: Decision, trade: ReplayTrade, k: nat)
    ensures Take(sc, st, d, trade, k).Ok? ==> st.records <= Take(sc, st, d, trade, k).value.records
  {
  }

  lemma {:induction false} DrainExtendsRecords(sc: Scenario, st: State, trade: ReplayTrade, k: nat)
    ensures Drain(sc, st, trade, k).Ok? ==> st.records <= Drain(sc, st, trade, k).value.records
    decreases |st.queue|
  {
    if st.queue != [] {
      var popped := st.(queue := st.queue[1..]);
      TakeKeepsQueue(sc, popped, st.queue[0], trade, k);
      TakeExtendsRecords(sc, popped, st.queue[0], trade, k);
      if Take(sc, popped, st.queue[0], trade, k).Ok? {
        DrainExtendsRecords(sc, Take(sc, popped, st.queue[0], trade, k).value, trade, k);
      }
    }
  }

  lemma {:induction false} StepExtendsRecords(env: Env, st: State, k: nat)
    requires k < |env.trades| && Step(env, st, k).Ok?
    ensures st.records <= Step(env, st, k).value.records
  {
    var trade := env.trades[k];
    AdvanceKeepsRecords(env, st, trade.ts);
    var filled := FillPendingExit(env.scenario, Advance(env, st, trade.ts).value, trade, k).value;
    DrainExtendsRecords(env.scenario, filled, trade, k);
  }

  lemma {:induction false} AfterOneBefore(env: Env, m: nat)
    requires 0 < m <= |env.trades| && After(env, m).Ok?
    ensures After(env, m - 1).Ok? && Step(env, After(env, m - 1).value, m - 1) == After(env, m)
  {
  }

  lemma {:induction false} OneTradeGrows(env: Env, m: nat)
    requires 0 < m <= |env.trades| && After(env, m).Ok?
    ensures After(env, m - 1).Ok? && After(env, m - 1).value.records <= After(env, m).value.records
  {
    AfterOneBefore(env, m);
    StepExtendsRecords(env, After(env, m - 1).value, m - 1);
  }

  lemma {:induction false} RecordsGrow(env: Env, n: nat, m: nat)
    requires n <= m <= |env.trades| && After(env, m).Ok?
    ensures After(env, n).Ok? && After(env, n).value.records <= After(env, m).value.records
  {
    hide Step;
    if n < m {
      OneTradeGrows(env, m);
      RecordsGrow(env, n, m - 1);
    }
  }

  lemma {:induction false} SettleExtendsRecords(env: Env, st: State)
    requires Settle(env, st).Ok?
    ensures st.records <= Settle(env, st).value.records
  {
  }

  /** The ledger of a complete run starts with the records of any of its moments. */
  lemma {:induction false} LedgerContinues(env: Env, n: nat)
    requires n <= |env.trades| && Run(env).Ok?
    ensures After(env, n).Ok? && After(env, n).value.records <= Run(env).value.records
  {
    RecordsGrow(env, n, |env.trades|);
    var st := After(env, |env.trades|).value;
    AdvanceKeepsRecords(env, st, SWEEP_CUTOFF);
    SettleExtendsRecords(env, LeaveUnfilled(Advance(env, st, SWEEP_CUTOFF).value));
  }

  /** No lookahead in the published ledger: complete runs over two feeds that agree until trade `k` start with the same
      records, all those closed by then. */
  lemma {:induction false} LedgersAgreeUntil(a: Env, b: Env, k: nat)
    requires Sorted(a) && Sorted(b) && k < |a.trades| && k < |b.trades|
    requires a.trades[..k + 1] == b.trades[..k + 1] && AgreeUntil(a, b, a.trades[k].ts)
    ensures Run(a).Ok? && Run(b).Ok? ==>
      && After(a, k + 1).Ok?
      && After(a, k + 1).value.records <= Run(a).value.records
      && After(a, k + 1).value.records <= Run(b).value.records
  {
    hide Run, After;
    NoLookahead(a, b, k);
    if Run(a).Ok? && Run(b).Ok? {
      LedgerContinues(a, k + 1);
      LedgerContinues(b, k + 1);
    }
  }
}
