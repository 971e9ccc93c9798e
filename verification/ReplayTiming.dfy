/** When the replay acts: decisions at the first trade after their candle, exits at the first touch of the level in
    force, filled on the very next trade. */
module ReplayTiming {
  import opened Numerics
  import opened Risk
  import opened Replay
  import opened ReplayCausality
  import opened ReplayLedger
  import opened ReplayCalls

  function ReplyTo(env: Env, n: nat): Reply
    requires 0 < n <= |env.candles|
  {
    env.provider(Shown(env, n))
  }

  /** A provider that keeps the contract: it answers every candle, for that candle, with a known action. */
  ghost predicate Faithful(env: Env) {
    forall n: nat :: 0 < n <= |env.candles| ==>
      !ReplyTo(env, n).Refuse? && (ReplyTo(env, n).Decide? ==> Genuine(env, ReplyTo(env, n).decision, n - 1))
  }

  predicate Genuine(env: Env, d: Decision, c: nat)
    requires c < |env.candles|
  {
    && d.candleIndex == c && d.signalTs == env.candles[c].closeTime && (d.action == "buy" || d.action == "sell")
    && d.referencePrice == env.candles[c].close && d.atr == AtrOf(env, c)
  }

  /** Asked about candle `c`, the provider decided on this action. */
  predicate Says(env: Env, c: nat, action: string) {
    c < |env.candles| && ReplyTo(env, c + 1).Decide? && ReplyTo(env, c + 1).decision.action == action
  }

  /** Trade `k` is the first one at or after the close of candle `c`. */
  predicate FirstEligible(env: Env, c: nat, k: nat)
    requires k < |env.trades|
  {
    && c < |env.candles| && env.candles[c].closeTime <= env.trades[k].ts
    && (k > 0 ==> env.trades[k - 1].ts < env.candles[c].closeTime)
  }

  // ---- the reference path of a position: what the market alone says

  /** A position as it was opened. */
  function Opening(pos: Position): Position {
    pos.(trailing := pos.initialStop, highest := pos.executionPrice, lowest := pos.executionPrice,
         currentAtr := pos.atr, trailingUpdates := 0)
  }

  /** Trades that can move or close a position: later in the tape and strictly later in time than its fill. */
  predicate Eligible(env: Env, p: Position, j: nat) {
    p.fillIndex < j < |env.trades| && env.trades[j].ts > p.fillTs
  }

  /** The last ATR defined on candles `lo..hi`, if any is. */
  function LastAtr(env: Env, lo: nat, hi: nat, default: real): real
    requires hi <= |env.candles|
    decreases hi
  {
    if hi <= lo then default
    else if AtrOf(env, hi - 1).Some? then AtrOf(env, hi - 1).value
    else LastAtr(env, lo, hi - 1, default)
  }

  /** The ATR that trails a position at trade `j`: that of the entry, or in dynamic mode of the last candle confirmed
      since. */
  function AtrInForce(env: Env, p: Position, j: nat): real
    requires j < |env.trades|
  {
    if env.scenario.dynamic then
      LastAtr(env, Closed(env.candles, p.fillTs), Closed(env.candles, env.trades[j].ts), p.atr)
    else p.atr
  }

  /** Highest price up to trade `j`, the entry's execution price included. */
  function HighestBy(env: Env, p: Position, j: nat): real
    requires p.fillIndex <= j < |env.trades|
    decreases j
  {
    if j == p.fillIndex then p.executionPrice
    else if Eligible(env, p, j) then Max(HighestBy(env, p, j - 1), env.trades[j].price)
    else HighestBy(env, p, j - 1)
  }

  function LowestBy(env: Env, p: Position, j: nat): real
    requires p.fillIndex <= j < |env.trades|
    decreases j
  {
    if j == p.fillIndex then p.executionPrice
    else if Eligible(env, p, j) then Min(LowestBy(env, p, j - 1), env.trades[j].price)
    else LowestBy(env, p, j - 1)
  }

  /** The protective level in force when trade `j` is judged: only the trades before it have raised it. */
  function LevelAt(env: Env, p: Position, j: nat): (r: real)
    requires p.fillIndex < j <= |env.trades|
    ensures r >= p.initialStop
    decreases j
  {
    if j == p.fillIndex + 1 then p.initialStop
    else if Eligible(env, p, j - 1) then
      UpdateTrailing(Exact, LevelAt(env, p, j - 1), HighestBy(env, p, j - 1), AtrInForce(env, p, j - 1),
                     env.scenario.risk)
    else LevelAt(env, p, j - 1)
  }

  /** How often the level has risen by the time trade `j` is judged. */
  function RisesBy(env: Env, p: Position, j: nat): nat
    requires p.fillIndex < j <= |env.trades|
    decreases j
  {
    if j == p.fillIndex + 1 then 0
    else RisesBy(env, p, j - 1) + if LevelAt(env, p, j) > LevelAt(env, p, j - 1) then 1 else 0
  }

  /** Why trade `j` closes the position, if it does: the stop family before the target. */
  function Touched(env: Env, p: Position, j: nat): Option<string>
    requires p.fillIndex < j < |env.trades|
  {
    var price, level := env.trades[j].price, LevelAt(env, p, j);
    if !Eligible(env, p, j) then None
    else if price <= level then Some(if level > p.executionPrice then "trailing_stop" else "stop_loss")
    else if price >= p.initialTarget then Some("take_profit")
    else None
  }

  predicate Untouched(env: Env, p: Position, to: nat)
    requires to <= |env.trades|
  {
    forall j :: p.fillIndex < j < to ==> Touched(env, p, j).None?
  }

  /** The level never falls. */
  lemma {:induction false} LevelMonotone(env: Env, p: Position, i: nat, j: nat)
    requires p.fillIndex < i <= j <= |env.trades|
    ensures p.initialStop <= LevelAt(env, p, i) <= LevelAt(env, p, j)
    decreases j
  {
    if i < j {
      LevelMonotone(env, p, i, j - 1);
    }
  }

  // ---- what holds of positions, exits and records

  /** Stop and target sit at their multiples of the entry ATR: from the execution price with a fixed quantity, from the
      decision candle's close when the risk engine sizes the entry. */
  predicate StopsOk(sc: Scenario, p: Position) {
    var base := if sc.dynamic then p.referencePrice else p.executionPrice;
    && p.initialStop == base - sc.risk.stopAtrMultiplier * p.atr
    && p.initialTarget == base + sc.risk.takeProfitRMultiple * (base - p.initialStop)
    && (!sc.dynamic ==> p.quantity == sc.quantity)
  }

  predicate EntryOk(env: Env, p: Position) {
    && p.fillIndex < |env.trades|
    && p.fillTs == env.trades[p.fillIndex].ts && p.tradePrice == env.trades[p.fillIndex].price
    && p.executionPrice == p.tradePrice * (1.0 + env.scenario.Slip())
    && FirstEligible(env, p.candleIndex, p.fillIndex) && Says(env, p.candleIndex, "buy")
    && p.signalTs == env.candles[p.candleIndex].closeTime
    && p.referencePrice == env.candles[p.candleIndex].close && AtrOf(env, p.candleIndex) == Some(p.atr)
    && StopsOk(env.scenario, p)
  }

  /** The position's extremes are those of the trades up to `j`. */
  predicate Ranged(env: Env, p: Position, j: nat) {
    p.fillIndex <= j < |env.trades| && p.highest == HighestBy(env, Opening(p), j)
    && p.lowest == LowestBy(env, Opening(p), j)
  }

  /** Its level, and how often it was raised, are those in force at trade `n`. */
  predicate Trailed(env: Env, p: Position, n: nat) {
    p.fillIndex < n <= |env.trades| && p.trailing == LevelAt(env, Opening(p), n)
    && p.trailingUpdates == RisesBy(env, Opening(p), n)
  }

  /** An open position before trade `n` is judged, no exit triggered so far. */
  predicate Walks(env: Env, p: Position, n: nat) {
    && EntryOk(env, Opening(p)) && p.fillIndex < n <= |env.trades|
    && Ranged(env, p, n - 1) && Trailed(env, p, n)
    && Untouched(env, Opening(p), n)
  }

  predicate AtrIs(env: Env, p: Position, hi: nat) {
    hi <= |env.candles| &&
    (env.scenario.dynamic ==> p.currentAtr == LastAtr(env, Closed(env.candles, p.fillTs), hi, p.atr))
  }

  /** Trade `t` is the first to touch the position, for this reason, at this level. */
  predicate Trips(env: Env, p: Position, reason: string, reference: real, t: nat) {
    && EntryOk(env, Opening(p)) && p.fillIndex < t < |env.trades|
    && Touched(env, Opening(p), t) == Some(reason) && Untouched(env, Opening(p), t)
    && Ranged(env, p, t) && Trailed(env, p, t)
    && reference == (if reason == "take_profit" then p.initialTarget else LevelAt(env, Opening(p), t))
  }

  predicate Tripped(env: Env, p: Position, e: PendingExit, t: nat) {
    && Trips(env, p, e.reason, e.referencePrice, t)
    && e.triggerIndex == Some(t) && e.triggerTs == env.trades[t].ts && e.triggerPrice == env.trades[t].price
  }

  /** A record's entry and exit happened at trades of the tape. */
  predicate FilledAt(env: Env, r: Record) {
    && EntryOk(env, Opening(r.entry)) && r.entry.fillIndex <= r.exitFillIndex < |env.trades|
    && r.exitFillTs == env.trades[r.exitFillIndex].ts && r.exitTradePrice == env.trades[r.exitFillIndex].price
    && r.holdingMs == r.exitFillTs - r.entry.fillTs
    && r.mfe == Max(r.entry.highest - r.entry.executionPrice, 0.0)
    && r.mae == Max(r.entry.executionPrice - r.entry.lowest, 0.0)
  }

  /** A risk exit triggers at the first touch and fills on the very next trade, or at the trigger if there is none. */
  predicate RiskExit(env: Env, r: Record) {
    && FilledAt(env, r) && r.exitTriggerIndex.Some?
    && var t := r.exitTriggerIndex.value;
       && Trips(env, r.entry, r.exitReason, r.exitReferencePrice, t) && r.exitTriggerTs == env.trades[t].ts
       && (r.exitFillIndex == t + 1 || (r.exitFillIndex == t && t + 1 == |env.trades|))
  }

  /** The last trade before trade `k` that the position has lived through, its own fill if there is none. */
  function LastBefore(p: Position, k: nat): nat {
    if p.fillIndex < k then k - 1 else p.fillIndex
  }

  /** The extremes up to trade `k`, whose price counts whatever its time. */
  predicate RangedWith(env: Env, p: Position, k: nat) {
    && p.fillIndex <= k < |env.trades|
    && p.highest == Max(HighestBy(env, Opening(p), LastBefore(p, k)), env.trades[k].price)
    && p.lowest == Min(LowestBy(env, Opening(p), LastBefore(p, k)), env.trades[k].price)
  }

  /** Candle `c` decided to sell, at its close, and trade `k` is the first one eligible for it. */
  predicate SoldOn(env: Env, r: Record, c: nat) {
    && r.exitFillIndex < |env.trades| && FirstEligible(env, c, r.exitFillIndex) && Says(env, c, "sell")
    && r.exitTriggerTs == env.candles[c].closeTime && r.exitReferencePrice == env.candles[c].close
  }

  /** A strategy exit fills at the first trade eligible for its decision to sell, before any trade touched the
      position. */
  predicate StrategyExit(env: Env, r: Record) {
    && FilledAt(env, r) && r.exitReason == "strategy_exit" && Untouched(env, Opening(r.entry), r.exitFillIndex)
    && r.exitTriggerIndex.None? && RangedWith(env, r.entry, r.exitFillIndex)
    && Trailed(env, r.entry, LastBefore(r.entry, r.exitFillIndex) + 1)
    && exists c: nat :: c < |env.candles| && SoldOn(env, r, c)
  }

  /** A position the data ends on was never touched and closes at the last trade. */
  predicate EndExit(env: Env, r: Record) {
    && FilledAt(env, r) && r.exitReason == "end_of_dataset" && r.exitFillIndex + 1 == |env.trades|
    && Untouched(env, Opening(r.entry), |env.trades|)
    && r.exitTriggerIndex == Some(r.exitFillIndex) && r.exitTriggerTs == r.exitFillTs
    && r.exitReferencePrice == r.exitTradePrice
    && Ranged(env, r.entry, r.exitFillIndex) && Trailed(env, r.entry, |env.trades|)
  }

  predicate WellTimed(env: Env, r: Record) {
    (RiskReason(r.exitReason) && RiskExit(env, r)) || StrategyExit(env, r) || EndExit(env, r)
  }

  predicate AllWellTimed(env: Env, rs: seq<Record>) {
    forall i :: 0 <= i < |rs| ==> WellTimed(env, rs[i])
  }

  /** Every queued decision is genuine and has waited for no earlier trade. */
  predicate FreshQueue(env: Env, q: seq<Decision>, k: nat)
    requires k < |env.trades|
  {
    forall i :: 0 <= i < |q| ==>
      && FirstEligible(env, q[i].candleIndex, k) && Genuine(env, q[i], q[i].candleIndex)
      && Says(env, q[i].candleIndex, q[i].action)
  }

  /** The decision a provider gives for candle `c`, if it gives one. */
  function DecisionAt(env: Env, c: nat): seq<Decision>
    requires c < |env.candles|
  {
    if ReplyTo(env, c + 1).Decide? then [ReplyTo(env, c + 1).decision] else []
  }

  /** The decisions a provider gives for the candles `lo` up to `hi`, in order. */
  function DecisionsOf(env: Env, lo: nat, hi: nat): seq<Decision>
    requires lo <= hi <= |env.candles|
  {
    if lo == hi then [] else DecisionsOf(env, lo, hi - 1) + DecisionAt(env, hi - 1)
  }

  lemma {:induction false} Regroup(a: seq<Decision>, b: seq<Decision>, c: seq<Decision>)
    ensures (a + b) + c == a + (b + c)
  {
  }

  lemma {:induction false} OneDecision(env: Env, c: nat)
    requires c < |env.candles|
    ensures DecisionsOf(env, c, c + 1) == DecisionAt(env, c)
  {
    hide DecisionAt;
    assert DecisionsOf(env, c, c) == [];
  }

  lemma {:induction false} FirstDecision(env: Env, lo: nat, hi: nat)
    requires lo < hi <= |env.candles|
    ensures DecisionsOf(env, lo, hi) == DecisionAt(env, lo) + DecisionsOf(env, lo + 1, hi)
  {
    hide DecisionAt;
    if lo + 1 < hi {
      FirstDecision(env, lo, hi - 1);
      Regroup(DecisionAt(env, lo), DecisionsOf(env, lo + 1, hi - 1), DecisionAt(env, hi - 1));
    } else {
      OneDecision(env, lo);
    }
  }

  /** What one more confirmed candle and the candles after it add to a queue. */
  lemma {:induction false} QueueFollows(env: Env, q: seq<Decision>, lo: nat, hi: nat)
    requires lo < hi <= |env.candles|
    ensures (q + DecisionAt(env, lo)) + DecisionsOf(env, lo + 1, hi) == q + DecisionsOf(env, lo, hi)
    ensures |DecisionsOf(env, lo, hi)| == |DecisionAt(env, lo)| + |DecisionsOf(env, lo + 1, hi)|
  {
    hide DecisionAt, DecisionsOf;
    FirstDecision(env, lo, hi);
    Regroup(q, DecisionAt(env, lo), DecisionsOf(env, lo + 1, hi));
  }

  // ---- candles

  lemma {:induction false} ConfirmTimed(env: Env, st: State, k: nat)
    requires InSequence(env, st)
    requires Sorted(env) && Faithful(env) && k < |env.trades| && st.candleI < Closed(env.candles, env.trades[k].ts)
    requires k > 0 ==> st.candleI >= Closed(env.candles, env.trades[k - 1].ts)
    requires FreshQueue(env, st.queue, k)
    ensures
      Confirm(env, st).Ok? &&
      var next := Confirm(env, st).value;
      && InSequence(env, next)
      && next.candleI == st.candleI + 1 && FreshQueue(env, next.queue, k)
      && next.queue == st.queue + DecisionAt(env, st.candleI)
      && next.records == st.records && next.pending == st.pending
      && (st.position.None? ==> next.position.None?)
      && (st.position.Some? ==>
            && next.position == Some(st.position.value.(currentAtr := next.position.value.currentAtr))
            && (AtrIs(env, st.position.value, st.candleI) && Closed(env.candles, st.position.value.fillTs) <= st.candleI
                ==> AtrIs(env, next.position.value, st.candleI + 1)))
  {
    var c := st.candleI;
    ClosedSpec(env.candles, env.trades[k].ts);
    if k > 0 {
      ClosedSpec(env.candles, env.trades[k - 1].ts);
    }
    assert FirstEligible(env, c, k);
    ConfirmAnswered(env, st);
    var reply := ReplyTo(env, c + 1);
    assert reply.Decide? ==> Genuine(env, reply.decision, c);
  }

  /** A faithful provider, asked in sequence, answers: the reply is the one for the candle confirmed. */
  lemma {:induction false} ConfirmAnswered(env: Env, st: State)
    requires Faithful(env) && InSequence(env, st) && st.candleI < |env.candles|
    ensures
      Confirm(env, st).Ok? &&
      var next := Confirm(env, st).value;
      && InSequence(env, next) && next.candleI == st.candleI + 1
      && next.queue == st.queue + DecisionAt(env, st.candleI)
      && next.stats.total == st.stats.total + |DecisionAt(env, st.candleI)|
  {
    var n := st.candleI + 1;
    assert st.asked + [InputAt(env, st.candleI)] == Shown(env, n);
    assert !ReplyTo(env, n).Refuse?;
  }

  /** Confirming candles changes nothing of a position but the ATR that trails it. */
  predicate SameButAtr(a: Option<Position>, b: Option<Position>) {
    && (a.Some? <==> b.Some?)
    && (a.Some? ==> b.value == a.value.(currentAtr := b.value.currentAtr))
  }

  predicate AtrKept(env: Env, pos: Option<Position>, hi: nat) {
    pos.Some? ==> AtrIs(env, pos.value, hi) && Closed(env.candles, pos.value.fillTs) <= hi
  }

  lemma {:induction false} AdvanceTimed(env: Env, st: State, k: nat)
    requires InSequence(env, st)
    requires Sorted(env) && Faithful(env) && k < |env.trades| && st.candleI <= Closed(env.candles, env.trades[k].ts)
    requires k > 0 ==> st.candleI >= Closed(env.candles, env.trades[k - 1].ts)
    requires FreshQueue(env, st.queue, k) && AtrKept(env, st.position, st.candleI)
    ensures
      Advance(env, st, env.trades[k].ts).Ok? &&
      var next := Advance(env, st, env.trades[k].ts).value;
      && InSequence(env, next)
      && next.candleI == Closed(env.candles, env.trades[k].ts) && FreshQueue(env, next.queue, k)
      && next.queue == st.queue + DecisionsOf(env, st.candleI, next.candleI)
      && next.records == st.records && next.pending == st.pending && SameButAtr(st.position, next.position)
      && AtrKept(env, next.position, next.candleI)
    decreases |env.candles| - st.candleI
  {
    hide Advance, Confirm, FreshQueue, AtrIs, DecisionAt;
    ClosedSpec(env.candles, env.trades[k].ts);
    AdvanceStep(env, st, env.trades[k].ts);
    if st.candleI < Closed(env.candles, env.trades[k].ts) {
      ConfirmTimed(env, st, k);
      AdvanceTimed(env, Confirm(env, st).value, k);
      QueueFollows(env, st.queue, st.candleI, Closed(env.candles, env.trades[k].ts));
    }
  }

  // ---- one trade

  /** A position while trade `k` is being processed, candles confirmed and no exit pending. */
  predicate Held(env: Env, p: Position, k: nat)
    requires k < |env.trades|
  {
    && AtrIs(env, p, Closed(env.candles, env.trades[k].ts))
    && (Walks(env, p, k) || (p.fillIndex == k && EntryOk(env, Opening(p)) && p == Opening(p)))
  }

  predicate Mid(env: Env, st: State, k: nat)
    requires k < |env.trades|
  {
    && st.candleI == Closed(env.candles, env.trades[k].ts) && FreshQueue(env, st.queue, k)
    && AllWellTimed(env, st.records) && st.pending.None?
    && (st.position.Some? ==> Held(env, st.position.value, k))
  }

  /** The engine between trades, after the first `n`. */
  predicate Timed(env: Env, st: State, n: nat)
    requires n <= |env.trades|
  {
    && st.queue == [] && AllWellTimed(env, st.records)
    && st.candleI == (if n == 0 then 0 else Closed(env.candles, env.trades[n - 1].ts))
    && (st.position.None? ==> st.pending.None?)
    && (st.position.Some? ==>
          && n > 0 && AtrIs(env, st.position.value, st.candleI) && st.position.value.fillTs <= env.trades[n - 1].ts
          && (if st.pending.Some? then Tripped(env, st.position.value, st.pending.value, n - 1)
              else Walks(env, st.position.value, n)))
  }

  lemma {:induction false} AppendWellTimed(env: Env, rs: seq<Record>, r: Record)
    requires AllWellTimed(env, rs) && WellTimed(env, r)
    ensures AllWellTimed(env, rs + [r])
  {
  }

  lemma {:induction false} ReasonIsRisk(env: Env, p: Position, j: nat)
    requires p.fillIndex < j < |env.trades|
    ensures Touched(env, p, j).Some? ==> RiskReason(Touched(env, p, j).value)
  {
  }

  lemma {:induction false} FillTimed(env: Env, st: State, k: nat)
    requires k < |env.trades| && AllWellTimed(env, st.records)
    requires st.candleI == Closed(env.candles, env.trades[k].ts) && FreshQueue(env, st.queue, k)
    requires st.position.None? ==> st.pending.None?
    requires st.position.Some? ==>
      && AtrIs(env, st.position.value, st.candleI)
      && (if st.pending.Some? then k > 0 && Tripped(env, st.position.value, st.pending.value, k - 1)
          else Walks(env, st.position.value, k))
    ensures FillPendingExit(env.scenario, st, env.trades[k], k).Ok?
    ensures Mid(env, FillPendingExit(env.scenario, st, env.trades[k], k).value, k)
  {
    if st.pending.Some? {
      var r := CloseRecord(env.scenario, st.position.value, st.pending.value, env.trades[k].ts, k, env.trades[k].price);
      ReasonIsRisk(env, Opening(r.entry), k - 1);
      assert RiskExit(env, r);
      AppendWellTimed(env, st.records, r);
    }
  }

  lemma {:induction false} FixedStops(sc: Scenario, d: Decision, trade: ReplayTrade, k: nat)
    requires d.atr.Some? && !sc.dynamic
    ensures StopsOk(sc, OpenFixed(sc, d, d.atr.value, trade, k))
  {
  }

  lemma {:induction false} DynamicStops(
    sc: Scenario, d: Decision, trade: ReplayTrade, k: nat, v: RiskVerdict, rolled: State)
    requires d.atr.Some? && sc.dynamic && v == EvaluateRisk(sc, rolled, d)
    requires v.approved && v.size.Some? && v.stopLoss.Some? && v.takeProfit.Some?
    ensures
      StopsOk(sc, Opened(sc, d, d.atr.value, trade, k, v.size.value.quantity, v.stopLoss.value, v.takeProfit.value))
  {
  }

  lemma {:induction false} OpenedHeld(
    env: Env, d: Decision, k: nat, p: Position, quantity: real, stop: real, target: real)
    requires k < |env.trades| && FirstEligible(env, d.candleIndex, k) && Genuine(env, d, d.candleIndex)
    requires Says(env, d.candleIndex, "buy")
    requires d.atr.Some? && p == Opened(env.scenario, d, d.atr.value, env.trades[k], k, quantity, stop, target)
    requires StopsOk(env.scenario, p)
    ensures Held(env, p, k)
  {
    assert Opening(p) == p;
  }

  lemma {:induction false} BuyTimed(env: Env, st: State, d: Decision, k: nat)
    requires k < |env.trades| && Mid(env, st, k) && FirstEligible(env, d.candleIndex, k)
    requires Genuine(env, d, d.candleIndex) && d.action == "buy" && Says(env, d.candleIndex, "buy")
    ensures TakeBuy(env.scenario, st, d, env.trades[k], k).Ok? ==>
      Mid(env, TakeBuy(env.scenario, st, d, env.trades[k], k).value, k)
  {
    var sc, trade := env.scenario, env.trades[k];
    var taken := TakeBuy(sc, st, d, trade, k);
    if st.position.None? && d.atr.Some? && taken.Ok? && taken.value.position.Some? {
      var p := taken.value.position.value;
      if !sc.dynamic {
        FixedStops(sc, d, trade, k);
      } else {
        var rolled := RollDay(st, trade.ts);
        DynamicStops(sc, d, trade, k, EvaluateRisk(sc, rolled, d), rolled);
      }
      OpenedHeld(env, d, k, p, p.quantity, p.initialStop, p.initialTarget);
    }
  }

  lemma {:induction false} HeldUntouched(env: Env, pos: Position, k: nat)
    requires k < |env.trades| && Held(env, pos, k)
    ensures EntryOk(env, Opening(pos)) && pos.fillIndex <= k && Untouched(env, Opening(pos), k)
    ensures Ranged(env, pos, LastBefore(pos, k)) && Trailed(env, pos, LastBefore(pos, k) + 1)
  {
  }

  lemma {:induction false} SellRecordTimed(env: Env, pos: Position, d: Decision, k: nat)
    requires k < |env.trades| && Held(env, pos, k) && FirstEligible(env, d.candleIndex, k)
    requires Genuine(env, d, d.candleIndex) && Says(env, d.candleIndex, "sell")
    ensures
      var trade := env.trades[k];
      var p := PendingExit("strategy_exit", d.signalTs, None, trade.price, d.referencePrice);
      StrategyExit(env, CloseRecord(env.scenario, Seen(pos, trade.price), p, trade.ts, k, trade.price))
  {
    HeldUntouched(env, pos, k);
    var trade := env.trades[k];
    var p := PendingExit("strategy_exit", d.signalTs, None, trade.price, d.referencePrice);
    var r := CloseRecord(env.scenario, Seen(pos, trade.price), p, trade.ts, k, trade.price);
    assert Opening(r.entry) == Opening(pos);
    assert FilledAt(env, r);
    var c := d.candleIndex;
    assert SoldOn(env, r, c);
  }

  lemma {:induction false} SellTimed(env: Env, st: State, d: Decision, k: nat)
    requires k < |env.trades| && Mid(env, st, k) && FirstEligible(env, d.candleIndex, k)
    requires Genuine(env, d, d.candleIndex) && d.action == "sell" && Says(env, d.candleIndex, "sell")
    ensures Mid(env, TakeSell(env.scenario, st, d, env.trades[k], k), k)
  {
    if st.position.Some? {
      var trade := env.trades[k];
      var p := PendingExit("strategy_exit", d.signalTs, None, trade.price, d.referencePrice);
      var pos := st.position.value;
      SellRecordTimed(env, pos, d, k);
      AppendWellTimed(env, st.records,
                      CloseRecord(env.scenario, Seen(pos, trade.price), p, trade.ts, k, trade.price));
    }
  }

  lemma {:induction false} DrainTimed(env: Env, st: State, k: nat)
    requires k < |env.trades| && Mid(env, st, k)
    ensures Drain(env.scenario, st, env.trades[k], k).Ok? ==>
      var next := Drain(env.scenario, st, env.trades[k], k).value;
      Mid(env, next, k) && next.queue == []
    ensures Drain(env.scenario, st, env.trades[k], k).Raised? ==>
      Drain(env.scenario, st, env.trades[k], k).fault == ApprovedWithoutStops
    decreases |st.queue|
  {
    if st.queue != [] {
      var popped, d := st.(queue := st.queue[1..]), st.queue[0];
      TakeKeepsQueue(env.scenario, popped, d, env.trades[k], k);
      if d.action == "buy" {
        BuyTimed(env, popped, d, k);
        BuyRaisesIff(env.scenario, popped, d, env.trades[k], k);
      } else {
        SellTimed(env, popped, d, k);
      }
      if Take(env.scenario, popped, d, env.trades[k], k).Ok? {
        DrainTimed(env, Take(env.scenario, popped, d, env.trades[k], k).value, k);
      }
    }
  }

  /** Just opened, or a trade at the very time of the fill: nothing is judged. */
  lemma {:induction false} RestTimed(env: Env, p: Position, k: nat)
    requires k < |env.trades| && Held(env, p, k) && env.trades[k].ts <= p.fillTs
    ensures Walks(env, p, k + 1)
  {
  }

  lemma {:induction false} JudgeTimed(env: Env, p: Position, k: nat)
    requires k < |env.trades| && Walks(env, p, k) && env.trades[k].ts > p.fillTs
    requires AtrIs(env, p, Closed(env.candles, env.trades[k].ts))
    ensures
      var seen := Seen(p, env.trades[k].price);
      && ExitAt(seen, env.trades[k].price) == Touched(env, Opening(p), k)
      && Protective(seen) == LevelAt(env, Opening(p), k)
      && (Touched(env, Opening(p), k).None? ==> Walks(env, Raise(env.scenario, seen), k + 1))
  {
    var seen := Seen(p, env.trades[k].price);
    assert Opening(seen) == Opening(p) && Eligible(env, Opening(p), k);
    assert Ranged(env, seen, k);
    var raised := Raise(env.scenario, seen);
    assert Opening(raised) == Opening(p);
    assert raised.trailing == LevelAt(env, Opening(p), k + 1);
  }

  /** The first touch leaves a tripped position behind, with the level it touched on record. */
  lemma {:induction false} TripTimed(env: Env, p: Position, k: nat)
    requires k < |env.trades| && Walks(env, p, k) && env.trades[k].ts > p.fillTs
    requires AtrIs(env, p, Closed(env.candles, env.trades[k].ts)) && Touched(env, Opening(p), k).Some?
    ensures
      var trade, reason := env.trades[k], Touched(env, Opening(p), k).value;
      var seen := Seen(p, trade.price);
      var reference := if reason == "take_profit" then seen.initialTarget else Protective(seen);
      Tripped(env, seen, PendingExit(reason, trade.ts, Some(k), trade.price, reference), k)
  {
    JudgeTimed(env, p, k);
    assert Opening(Seen(p, env.trades[k].price)) == Opening(p);
  }

  lemma {:induction false} EvalTimed(env: Env, st: State, k: nat)
    requires k < |env.trades| && Sorted(env) && Mid(env, st, k) && st.queue == []
    ensures Timed(env, RiskEval(env.scenario, st, env.trades[k], k), k + 1)
  {
    if st.position.Some? {
      var p := st.position.value;
      if env.trades[k].ts <= p.fillTs {
        RestTimed(env, p, k);
      } else {
        JudgeTimed(env, p, k);
        if Touched(env, Opening(p), k).Some? {
          TripTimed(env, p, k);
        }
      }
    }
  }

  // ---- whole runs

  lemma {:induction false} StepTimed(env: Env, st: State, n: nat)
    requires InSequence(env, st)
    requires Sorted(env) && Faithful(env) && n < |env.trades| && Timed(env, st, n)
    ensures Step(env, st, n).Ok? ==> Timed(env, Step(env, st, n).value, n + 1)
    ensures Step(env, st, n).Raised? ==> Step(env, st, n).fault == ApprovedWithoutStops
  {
    if n > 0 {
      ClosedMonotone(env.candles, env.trades[n - 1].ts, env.trades[n].ts);
      if st.position.Some? {
        ClosedMonotone(env.candles, st.position.value.fillTs, env.trades[n - 1].ts);
      }
    }
    AdvanceTimed(env, st, n);
    var confirmed := Advance(env, st, env.trades[n].ts).value;
    CandlesKeepExits(env, st, confirmed, n);
    FillTimed(env, confirmed, n);
    var filled := FillPendingExit(env.scenario, confirmed, env.trades[n], n).value;
    DrainTimed(env, filled, n);
    if Drain(env.scenario, filled, env.trades[n], n).Ok? {
      EvalTimed(env, Drain(env.scenario, filled, env.trades[n], n).value, n);
    }
  }

  lemma {:induction false} CandlesKeepExits(env: Env, st: State, next: State, n: nat)
    requires n <= |env.trades| && Timed(env, st, n)
    requires SameButAtr(st.position, next.position) && next.pending == st.pending
    ensures next.position.None? ==> next.pending.None?
    ensures next.position.Some? ==>
      n > 0 && (if next.pending.Some? then Tripped(env, next.position.value, next.pending.value, n - 1)
                else Walks(env, next.position.value, n))
  {
    if st.position.Some? {
      assert Opening(next.position.value) == Opening(st.position.value);
    }
  }

  lemma {:induction false} AfterTimed(env: Env, n: nat)
    requires Sorted(env) && Faithful(env) && n <= |env.trades|
    ensures After(env, n).Ok? ==> Timed(env, After(env, n).value, n)
    ensures After(env, n).Raised? ==> After(env, n).fault == ApprovedWithoutStops
  {
    hide Step;
    if n > 0 {
      AfterTimed(env, n - 1);
      if After(env, n - 1).Ok? {
        AfterInSequence(env, n - 1);
        AfterOne(env, After(env, n - 1).value, n - 1);
        StepTimed(env, After(env, n - 1).value, n - 1);
      }
    }
  }

  lemma {:induction false} ConfirmKeepsPosition(env: Env, st: State)
    requires st.candleI < |env.candles| && Confirm(env, st).Ok?
    ensures SameButAtr(st.position, Confirm(env, st).value.position)
  {
  }

  /** Confirming the candles left at the end never raises and closes nothing. */
  lemma {:induction false} SweepAdvances(env: Env, st: State, cutoff: int)
    requires Faithful(env) && InSequence(env, st)
    ensures Advance(env, st, cutoff).Ok?
    ensures
      var next := Advance(env, st, cutoff).value;
      && InSequence(env, next) && st.candleI <= next.candleI
      && next.queue == st.queue + DecisionsOf(env, st.candleI, next.candleI)
      && next.stats.total == st.stats.total + |DecisionsOf(env, st.candleI, next.candleI)|
      && next.records == st.records && next.pending == st.pending && SameButAtr(st.position, next.position)
    decreases |env.candles| - st.candleI
  {
    hide Confirm, DecisionAt, Faithful;
    if st.candleI < |env.candles| && env.candles[st.candleI].closeTime <= cutoff {
      ConfirmAnswered(env, st);
      ConfirmShape(env, st);
      ConfirmKeepsPosition(env, st);
      SweepAdvances(env, Confirm(env, st).value, cutoff);
      QueueFollows(env, st.queue, st.candleI, Advance(env, st, cutoff).value.candleI);
    }
  }

  lemma {:induction false} SettleTimed(env: Env, st: State)
    requires AllWellTimed(env, st.records) && (st.position.None? ==> st.pending.None?)
    requires st.position.Some? ==>
      env.trades != [] &&
      (if st.pending.Some? then Tripped(env, st.position.value, st.pending.value, |env.trades| - 1)
       else Walks(env, st.position.value, |env.trades|))
    ensures Settle(env, st).Ok? && AllWellTimed(env, Settle(env, st).value.records)
  {
    if st.position.Some? {
      var k := |env.trades| - 1;
      var last := env.trades[k];
      var p := if st.pending.Some? then st.pending.value
               else PendingExit("end_of_dataset", last.ts, Some(k), last.price, last.price);
      var r := CloseRecord(env.scenario, st.position.value, p, last.ts, k, last.price);
      if st.pending.Some? {
        ReasonIsRisk(env, Opening(r.entry), k);
        assert RiskExit(env, r);
      } else {
        assert EndExit(env, r);
      }
      AppendWellTimed(env, st.records, r);
      var closed := Finish(env.scenario, st, st.position.value, p, last.ts, k, last.price);
      assert closed.position.None? && closed.records == st.records + [r];
    }
  }

  /** Timing of every complete replay, for any causal provider that keeps its contract: each entry fills at the first
      trade at or after its candle's close; each stop or target exit is triggered by the first trade after the fill to
      touch the level then in force and fills on the very next trade, or at the trigger if the data ends there; strategy
      exits fill at their first eligible trade, before any touch; and what is left open was never touched. The only way
      not to complete is an approved entry without stops. */
  lemma {:induction false} RunWellTimed(env: Env)
    requires Sorted(env) && Faithful(env)
    ensures Run(env).Ok? ==> AllWellTimed(env, Run(env).value.records)
    ensures Run(env).Raised? ==>
      Run(env).fault == ApprovedWithoutStops && env.scenario.dynamic && !env.scenario.risk.stopLossRequired
  {
    RunSettles(env);
    AfterTimed(env, |env.trades|);
    AfterInSequence(env, |env.trades|);
    if After(env, |env.trades|).Ok? {
      var st := After(env, |env.trades|).value;
      SweepAdvances(env, st, SWEEP_CUTOFF);
      var swept := Advance(env, st, SWEEP_CUTOFF).value;
      CandlesKeepExits(env, st, swept, |env.trades|);
      SettleTimed(env, LeaveUnfilled(swept));
    }
  }

  // ---- every decision, taken or not

  /** What waits for trade `k` once the candles closed by then are confirmed. */
  function QueueAt(env: Env, st: State, k: nat): Outcome<seq<Decision>>
    requires k < |env.trades|
  {
    var confirmed :- Advance(env, st, env.trades[k].ts);
    Ok(confirmed.queue)
  }

  function ClosedBefore(env: Env, k: nat): nat
    requires k <= |env.trades|
  {
    if k == 0 then 0 else Closed(env.candles, env.trades[k - 1].ts)
  }

  /** Every decision is consumed at the first trade at or after its candle's close, whether it fills, is dropped or is
      rejected: at trade `k` the queue holds exactly the decisions of the candles that closed since the trade before, in
      order, each at its first eligible trade, and after the trade it is empty. */
  lemma {:induction false} DecisionsConsumedOnTime(env: Env, k: nat)
    requires Sorted(env) && Faithful(env) && k < |env.trades|
    ensures After(env, k + 1).Ok? ==>
      && After(env, k).Ok? && ClosedBefore(env, k) <= ClosedBefore(env, k + 1) <= |env.candles|
      && QueueAt(env, After(env, k).value, k) == Ok(DecisionsOf(env, ClosedBefore(env, k), ClosedBefore(env, k + 1)))
      && FreshQueue(env, DecisionsOf(env, ClosedBefore(env, k), ClosedBefore(env, k + 1)), k)
      && After(env, k + 1).value.queue == []
  {
    hide Step, RiskEval, Drain;
    AfterTimed(env, k);
    AfterTimed(env, k + 1);
    AfterInSequence(env, k);
    ClosedSpec(env.candles, env.trades[k].ts);
    if After(env, k).Raised? {
      AfterRaised(env, k);
    } else if k > 0 {
      ClosedMonotone(env.candles, env.trades[k - 1].ts, env.trades[k].ts);
      WaitingAt(env, k);
    } else {
      WaitingAt(env, k);
    }
  }

  lemma {:induction false} WaitingAt(env: Env, k: nat)
    requires Sorted(env) && Faithful(env) && k < |env.trades| && After(env, k).Ok?
    requires Timed(env, After(env, k).value, k) && InSequence(env, After(env, k).value)
    requires ClosedBefore(env, k) <= ClosedBefore(env, k + 1) <= |env.candles|
    ensures QueueAt(env, After(env, k).value, k) == Ok(DecisionsOf(env, ClosedBefore(env, k), ClosedBefore(env, k + 1)))
    ensures FreshQueue(env, DecisionsOf(env, ClosedBefore(env, k), ClosedBefore(env, k + 1)), k)
  {
    var st := After(env, k).value;
    if k > 0 && st.position.Some? {
      ClosedMonotone(env.candles, st.position.value.fillTs, env.trades[k - 1].ts);
    }
    AdvanceTimed(env, st, k);
    assert [] + DecisionsOf(env, ClosedBefore(env, k), ClosedBefore(env, k + 1))
      == DecisionsOf(env, ClosedBefore(env, k), ClosedBefore(env, k + 1));
  }

  /** The decisions a complete run leaves unfilled are exactly those of the candles that close after the last trade. */
  lemma {:induction false} UnfilledAreLate(env: Env)
    requires Sorted(env) && Faithful(env)
    ensures Run(env).Ok? ==>
      var last := Run(env).value;
      && ClosedBefore(env, |env.trades|) <= last.candleI <= |env.candles|
      && last.stats.unfilled == |DecisionsOf(env, ClosedBefore(env, |env.trades|), last.candleI)|
  {
    hide Step, Settle;
    var n := |env.trades|;
    AfterTimed(env, n);
    AfterInSequence(env, n);
    AfterKeeps(env, n);
    if Run(env).Ok? {
      var st := After(env, n).value;
      SweepAdvances(env, st, SWEEP_CUTOFF);
      var swept := Advance(env, st, SWEEP_CUTOFF).value;
      AdvanceKeepsUnfilled(env, st, SWEEP_CUTOFF);
      SettleCallsNothing(env, LeaveUnfilled(swept));
      SettleCountsNothing(env, LeaveUnfilled(swept));
    }
  }

  lemma {:induction false} SettleCountsNothing(env: Env, st: State)
    requires Settle(env, st).Ok?
    ensures Settle(env, st).value.stats.unfilled == st.stats.unfilled
  {
  }
}
