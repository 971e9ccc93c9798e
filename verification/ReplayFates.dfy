/** What becomes of every decision of a replay: which are filled, dropped or rejected is decided by the position, the
    ATR and the risk rules, and by nothing else. */
module ReplayFates {
  import opened Numerics
  import opened Replay
  import opened ReplayCausality
  import opened ReplayLedger
  import opened ReplayTiming
  import M = RiskMeaning
  import Risk
  import Portfolio

  // ---- one decision

  /** How often a reason has been counted. */
  function Tally(m: map<string, nat>, reason: string): nat {
    if reason in m then m[reason] else 0
  }

  /** The counts after one more of a reason. */
  ghost predicate OneMore(before: map<string, nat>, after: map<string, nat>, reason: string) {
    forall r :: Tally(after, r) == Tally(before, r) + if r == reason then 1 else 0
  }

  /** The entry a replay proposes to the risk rules, and the account it shows them: flat, at the capital plus what is
      realized, with the day rolled to the trade. */
  function Proposed(sc: Scenario, d: Decision): Risk.TradeProposal {
    Risk.TradeProposal(Portfolio.Buy, sc.intensity, d.referencePrice, d.atr)
  }

  function Shown(sc: Scenario, st: State, ts: int): Risk.RiskState {
    var today := if st.day.Some? && st.day.value != UtcDay(ts) then 0.0 else st.realizedToday;
    Risk.RiskState(0, today, st.peakEquity, sc.risk.capital + st.realizedTotal, false)
  }

  /** The decision is counted and forgotten. */
  predicate Dropped(st: State, next: State) {
    && next.stats == st.stats.(dropped := st.stats.dropped + 1) && next.position == st.position
    && next.records == st.records && next.rejectedReasons == st.rejectedReasons
  }

  ghost predicate Rejected(st: State, next: State, reason: string) {
    && next.stats == st.stats.(rejected := st.stats.rejected + 1) && next.position.None?
    && next.records == st.records && OneMore(st.rejectedReasons, next.rejectedReasons, reason)
  }

  /** A position is opened at this trade, on this decision. */
  predicate Entered(sc: Scenario, st: State, d: Decision, trade: ReplayTrade, k: nat, next: State) {
    && next.stats == st.stats.(filled := st.stats.filled + 1) && next.records == st.records
    && next.rejectedReasons == st.rejectedReasons && next.position.Some? && d.atr.Some?
    && var p := next.position.value;
       && p.fillIndex == k && p.fillTs == trade.ts && p.tradePrice == trade.price
       && p.executionPrice == trade.price * (1.0 + sc.Slip()) && p.highest == p.lowest == p.executionPrice
       && p.candleIndex == d.candleIndex && p.signalTs == d.signalTs && p.referencePrice == d.referencePrice
       && d.atr == Some(p.atr) && p.currentAtr == p.atr && p.trailing == p.initialStop && p.trailingUpdates == 0
       && (!sc.dynamic ==> p.quantity == sc.quantity)
  }

  /** The position is closed at this trade, for this decision. */
  predicate Left(sc: Scenario, st: State, d: Decision, trade: ReplayTrade, k: nat, next: State) {
    && next.stats == st.stats.(filled := st.stats.filled + 1, closedTrades := st.stats.closedTrades + 1)
    && next.rejectedReasons == st.rejectedReasons && next.position.None?
    && |next.records| == |st.records| + 1 && next.records[..|st.records|] == st.records
    && var r := next.records[|st.records|];
       && r.exitReason == "strategy_exit" && r.exitFillIndex == k && r.exitFillTs == trade.ts
       && r.exitTradePrice == trade.price && r.exitTriggerTs == d.signalTs && r.exitReferencePrice == d.referencePrice
  }

  /** A buy fills when flat, with an ATR, and, in a dynamic replay, with no risk rule against it; a sell fills when not
      flat. What is against a buy otherwise decides between a drop and a rejection. */
  ghost predicate Fated(sc: Scenario, st: State, d: Decision, trade: ReplayTrade, k: nat, next: State) {
    if d.action == "buy" then
      if st.position.Some? || d.atr.None? then Dropped(st, next)
      else
        match if sc.dynamic then M.Objection(sc.risk, Proposed(sc, d), Shown(sc, st, trade.ts)) else None
        case Some(reason) => Rejected(st, next, reason)
        case None => Entered(sc, st, d, trade, k, next)
    else if st.position.None? then Dropped(st, next)
    else Left(sc, st, d, trade, k, next)
  }

  lemma {:induction false} RejectionCounts(st: State, reason: string)
    ensures OneMore(st.rejectedReasons, RejectDecision(st, reason).rejectedReasons, reason)
  {
  }

  lemma {:induction false} BuyFated(sc: Scenario, st: State, d: Decision, trade: ReplayTrade, k: nat)
    requires d.action == "buy" && TakeBuy(sc, st, d, trade, k).Ok?
    ensures Fated(sc, st, d, trade, k, TakeBuy(sc, st, d, trade, k).value)
  {
    hide M.Objection, Risk.Evaluate, OneMore;
    if st.position.None? && d.atr.Some? && sc.dynamic {
      M.ApprovedIff(sc.risk, Proposed(sc, d), Shown(sc, st, trade.ts));
      var rolled := RollDay(st, trade.ts);
      RejectionCounts(rolled, EvaluateRisk(sc, rolled, d).reason);
    }
  }

  lemma {:induction false} SellFated(sc: Scenario, st: State, d: Decision, trade: ReplayTrade, k: nat)
    requires d.action == "sell"
    ensures Fated(sc, st, d, trade, k, TakeSell(sc, st, d, trade, k))
  {
    hide M.Objection;
  }

  // ---- the decisions of a trade

  /** The states between the decisions taken at one trade. */
  ghost predicate Chain(sc: Scenario, ds: seq<Decision>, trade: ReplayTrade, k: nat, states: seq<State>) {
    |states| == |ds| + 1 && forall i :: 0 <= i < |ds| ==> Fated(sc, states[i], ds[i], trade, k, states[i + 1])
  }

  lemma {:induction false} QueueIsNoMatter(
    sc: Scenario, st: State, d: Decision, trade: ReplayTrade, k: nat, next: State, queue: seq<Decision>)
    requires Fated(sc, st.(queue := queue), d, trade, k, next)
    ensures Fated(sc, st, d, trade, k, next)
  {
    hide M.Objection;
  }

  lemma {:induction false} ChainOn(
    sc: Scenario, ds: seq<Decision>, trade: ReplayTrade, k: nat, states: seq<State>, st: State)
    requires ds != [] && states != [] && Chain(sc, ds[1..], trade, k, states)
    requires Fated(sc, st, ds[0], trade, k, states[0])
    ensures Chain(sc, ds, trade, k, [st] + states)
  {
    hide Fated;
    var all := [st] + states;
    forall i | 0 <= i < |ds|
      ensures Fated(sc, all[i], ds[i], trade, k, all[i + 1])
    {
      if i > 0 {
        assert Fated(sc, states[i - 1], ds[1..][i - 1], trade, k, states[i]);
      }
    }
  }

  /** Every decision waiting at a trade meets its fate, one after the other. */
  lemma {:induction false} DrainChains(sc: Scenario, st: State, trade: ReplayTrade, k: nat) returns (states: seq<State>)
    requires Drain(sc, st, trade, k).Ok?
    ensures Chain(sc, st.queue, trade, k, states)
    ensures states[0] == st && states[|st.queue|] == Drain(sc, st, trade, k).value
    decreases |st.queue|
  {
    hide Fated, TakeBuy, TakeSell;
    if st.queue == [] {
      states := [st];
    } else {
      var d, popped := st.queue[0], st.(queue := st.queue[1..]);
      TakeKeepsQueue(sc, popped, d, trade, k);
      if d.action == "buy" {
        BuyFated(sc, popped, d, trade, k);
      } else {
        SellFated(sc, popped, d, trade, k);
      }
      var next := Take(sc, popped, d, trade, k).value;
      QueueIsNoMatter(sc, st, d, trade, k, next, popped.queue);
      var rest := DrainChains(sc, next, trade, k);
      ChainOn(sc, st.queue, trade, k, rest, st);
      states := [st] + rest;
    }
  }

  // ---- whole runs

  /** What a trade of a run does with the decisions that became eligible since the trade before: a pending exit fills
      first, each decision then meets its fate in order, and nothing else touches the books. */
  ghost predicate Consumes(env: Env, st: State, next: State, k: nat, ds: seq<Decision>, states: seq<State>)
    requires k < |env.trades|
  {
    && Chain(env.scenario, ds, env.trades[k], k, states)
    && (if st.pending.None? then states[0].records == st.records && states[0].position.Some? == st.position.Some?
        else states[0].position.None? && |states[0].records| == |st.records| + 1
             && states[0].records[..|st.records|] == st.records
             && states[0].records[|st.records|].exitFillIndex == k)
    && states[0].rejectedReasons == st.rejectedReasons
    && var last := states[|ds|];
       && next.records == last.records && next.stats == last.stats && next.rejectedReasons == last.rejectedReasons
       && next.position.Some? == last.position.Some?
       && next.realizedTotal == last.realizedTotal && next.peakEquity == last.peakEquity
  }

  lemma {:induction false} AdvanceKeepsBooks(env: Env, st: State, cutoff: int)
    requires Advance(env, st, cutoff).Ok?
    ensures
      var next := Advance(env, st, cutoff).value;
      && next.records == st.records && next.pending == st.pending && next.rejectedReasons == st.rejectedReasons
      && next.position.Some? == st.position.Some?
    decreases |env.candles| - st.candleI
  {
    if st.candleI < |env.candles| && env.candles[st.candleI].closeTime <= cutoff {
      AdvanceKeepsBooks(env, Confirm(env, st).value, cutoff);
    }
  }

  lemma {:induction false} EvalKeepsBooks(sc: Scenario, st: State, trade: ReplayTrade, k: nat)
    ensures
      var next := RiskEval(sc, st, trade, k);
      && next == st.(position := next.position, pending := next.pending) && next.position.Some? == st.position.Some?
  {
  }

  lemma {:induction false} ExitFills(sc: Scenario, st: State, trade: ReplayTrade, k: nat)
    requires FillPendingExit(sc, st, trade, k).Ok?
    ensures
      var next := FillPendingExit(sc, st, trade, k).value;
      && next.queue == st.queue && next.rejectedReasons == st.rejectedReasons
      && (if st.pending.None? then next == st
          else next.position.None? && |next.records| == |st.records| + 1
               && next.records[..|st.records|] == st.records && next.records[|st.records|].exitFillIndex == k)
  {
  }

  /** At every trade of every replay whose provider keeps to its candles, the decisions that became eligible since the
      trade before are taken in order, and each is filled, dropped or rejected as the position, its ATR and the risk
      rules say. */
  lemma {:induction false} TradesTakeDecisions(env: Env, k: nat) returns (states: seq<State>)
    requires Sorted(env) && Faithful(env) && k < |env.trades| && After(env, k + 1).Ok?
    ensures After(env, k).Ok? && ClosedBefore(env, k) <= ClosedBefore(env, k + 1) <= |env.candles|
    ensures
      Consumes(env, After(env, k).value, After(env, k + 1).value, k,
               DecisionsOf(env, ClosedBefore(env, k), ClosedBefore(env, k + 1)), states)
  {
    hide Advance, Drain, RiskEval, FillPendingExit, Chain, Sorted, Faithful;
    DecisionsConsumedOnTime(env, k);
    var st, trade := After(env, k).value, env.trades[k];
    var confirmed := Advance(env, st, trade.ts).value;
    AdvanceKeepsBooks(env, st, trade.ts);
    var filled := FillPendingExit(env.scenario, confirmed, trade, k).value;
    ExitFills(env.scenario, confirmed, trade, k);
    states := DrainChains(env.scenario, filled, trade, k);
    ChainLength(env.scenario, filled.queue, trade, k, states);
    EvalKeepsBooks(env.scenario, Drain(env.scenario, filled, trade, k).value, trade, k);
  }

  lemma {:induction false} ChainLength(
    sc: Scenario, ds: seq<Decision>, trade: ReplayTrade, k: nat, states: seq<State>)
    requires Chain(sc, ds, trade, k, states)
    ensures |states| == |ds| + 1
  {
  }
}
