/** What the replay engine actually asks its decision provider: every confirmed candle, once, in order. */
module ReplayCalls {
  import opened Numerics
  import opened Replay

  /** The calls made so far are those of the candles confirmed so far, each once and in order. */
  predicate InSequence(env: Env, st: State) {
    st.candleI <= |env.candles| && st.asked == Shown(env, st.candleI)
  }

  predicate SameCalls(a: State, b: State) {
    a.asked == b.asked && a.candleI == b.candleI
  }

  lemma {:induction false} ConfirmInSequence(env: Env, st: State)
    requires InSequence(env, st) && st.candleI < |env.candles| && Confirm(env, st).Ok?
    ensures InSequence(env, Confirm(env, st).value) && Confirm(env, st).value.candleI == st.candleI + 1
  {
  }

  /** The sweep asks for the candles it confirms and stops only at one that has not closed. */
  lemma {:induction false} AdvanceInSequence(env: Env, st: State, cutoff: int)
    requires InSequence(env, st) && Advance(env, st, cutoff).Ok?
    ensures
      var next := Advance(env, st, cutoff).value;
      && InSequence(env, next) && st.candleI <= next.candleI
      && (next.candleI < |env.candles| ==> env.candles[next.candleI].closeTime > cutoff)
    decreases |env.candles| - st.candleI
  {
    if st.candleI < |env.candles| && env.candles[st.candleI].closeTime <= cutoff {
      ConfirmInSequence(env, st);
      AdvanceInSequence(env, Confirm(env, st).value, cutoff);
    }
  }

  // ---- nothing but a confirmed candle makes a call

  lemma {:induction false} FillCallsNothing(env: Env, st: State, trade: ReplayTrade, index: nat)
    requires FillPendingExit(env.scenario, st, trade, index).Ok?
    ensures SameCalls(FillPendingExit(env.scenario, st, trade, index).value, st)
  {
  }

  lemma {:induction false} TakeCallsNothing(sc: Scenario, st: State, d: Decision, trade: ReplayTrade, index: nat)
    requires Take(sc, st, d, trade, index).Ok?
    ensures SameCalls(Take(sc, st, d, trade, index).value, st)
  {
    hide EvaluateRisk;
  }

  lemma {:induction false} DrainCallsNothing(sc: Scenario, st: State, trade: ReplayTrade, index: nat)
    requires Drain(sc, st, trade, index).Ok?
    ensures SameCalls(Drain(sc, st, trade, index).value, st)
    decreases |st.queue|
  {
    hide Take;
    if st.queue != [] {
      var popped := st.(queue := st.queue[1..]);
      TakeKeepsQueue(sc, popped, st.queue[0], trade, index);
      TakeCallsNothing(sc, popped, st.queue[0], trade, index);
      DrainCallsNothing(sc, Take(sc, popped, st.queue[0], trade, index).value, trade, index);
    }
  }

  lemma {:induction false} EvalCallsNothing(sc: Scenario, st: State, trade: ReplayTrade, index: nat)
    ensures SameCalls(RiskEval(sc, st, trade, index), st)
  {
  }

  lemma {:induction false} StepInSequence(env: Env, st: State, n: nat)
    requires n < |env.trades| && InSequence(env, st) && Step(env, st, n).Ok?
    ensures InSequence(env, Step(env, st, n).value)
  {
    hide Advance, FillPendingExit, Drain, RiskEval;
    var trade, sc := env.trades[n], env.scenario;
    AdvanceInSequence(env, st, trade.ts);
    var confirmed := Advance(env, st, trade.ts).value;
    FillCallsNothing(env, confirmed, trade, n);
    var filled := FillPendingExit(sc, confirmed, trade, n).value;
    DrainCallsNothing(sc, filled, trade, n);
    EvalCallsNothing(sc, Drain(sc, filled, trade, n).value, trade, n);
  }

  predicate InSequenceOutcome(env: Env, r: Outcome<State>) {
    r.Ok? ==> InSequence(env, r.value)
  }

  lemma {:induction false} AfterInSequence(env: Env, n: nat)
    requires n <= |env.trades|
    ensures InSequenceOutcome(env, After(env, n))
  {
    hide Step;
    if n > 0 {
      AfterInSequence(env, n - 1);
      if After(env, n - 1).Raised? {
        AfterRaised(env, n - 1);
      } else {
        AfterOne(env, After(env, n - 1).value, n - 1);
        if Step(env, After(env, n - 1).value, n - 1).Ok? {
          StepInSequence(env, After(env, n - 1).value, n - 1);
        }
      }
    }
  }

  lemma {:induction false} SettleCallsNothing(env: Env, st: State)
    requires Settle(env, st).Ok?
    ensures SameCalls(Settle(env, st).value, st)
  {
  }

  /** The engine keeps a provider's sequencing contract by itself: over a whole run it asks about every candle that
      closes before the end of time, exactly once, in the order of the candles and with that candle's input. */
  lemma {:induction false} RunAsksInSequence(env: Env)
    ensures Run(env).Ok? ==>
      var last := Run(env).value;
      && InSequence(env, last)
      && (last.candleI < |env.candles| ==> env.candles[last.candleI].closeTime > SWEEP_CUTOFF)
  {
    hide Advance, Settle, After;
    AfterInSequence(env, |env.trades|);
    if Run(env).Ok? {
      var st := After(env, |env.trades|).value;
      AdvanceInSequence(env, st, SWEEP_CUTOFF);
      SettleCallsNothing(env, LeaveUnfilled(Advance(env, st, SWEEP_CUTOFF).value));
    }
  }

  lemma {:induction false} ShownAt(env: Env, n: nat, i: nat)
    requires i < n <= |env.candles|
    ensures Shown(env, n)[i] == InputAt(env, i) && Shown(env, n)[..i + 1] == Shown(env, i + 1)
  {
    if i < n - 1 {
      ShownAt(env, n - 1, i);
      assert Shown(env, n)[..i + 1] == Shown(env, n - 1)[..i + 1];
    }
  }
}
