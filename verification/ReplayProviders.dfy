/** The decision providers of the repository, and that the engine never breaks the contract they check. */
module ReplayProviders {
  import opened Numerics
  import opened Replay
  import opened ReplayTiming
  import opened ReplayCalls
  import opened ReplayCausality
  import Portfolio
  import Indicators

  /** A strategy as the provider sees it: its signal is a function of the candles shown to it so far. */
  datatype StrategySignal = StrategySignal(ts: int, action: Portfolio.Action)

  type CandleStrategy = seq<Indicators.Candle> -> StrategySignal

  /** What the provider's own checks catch: a candle that is not the next one, does not exist, or is not asked about at
      its close. */
  predicate OutOfSequence(rows: seq<CandleRow>, consumed: nat, input: DecisionInput) {
    var i := input.candleIndex;
    i != consumed || i >= |rows| || input.decisionTs != rows[i].closeTime
  }

  /** The answer to the latest input, given how many candles were consumed before it. */
  function Answer(strategy: CandleStrategy, rows: seq<CandleRow>, consumed: nat, input: DecisionInput): Reply {
    var i := input.candleIndex;
    if OutOfSequence(rows, consumed, input) then Refuse
    else
      var signal := strategy(DomainCandles(rows[..i + 1]));
      if signal.ts != rows[i].openTime then Refuse
      else if signal.action.Hold? then Abstain
      else
        Decide(Decision(if signal.action.Buy? then "buy" else "sell", input.decisionTs, input.referencePrice, i,
                        input.atr))
  }

  /** What an answer means. It refuses exactly an input that is not the next one, does not exist, is not asked about at
      its close, or whose signal is not stamped with its open time; otherwise it abstains exactly on a hold, buys
      exactly on a buy and sells exactly on a sell, in the terms of the input. */
  lemma {:induction false} AnswerMeans(
    strategy: CandleStrategy, rows: seq<CandleRow>, consumed: nat, input: DecisionInput)
    ensures
      var reply, i := Answer(strategy, rows, consumed, input), input.candleIndex;
      reply.Refuse?
      <==> i != consumed || i >= |rows| || input.decisionTs != rows[i].closeTime
           || strategy(DomainCandles(rows[..i + 1])).ts != rows[i].openTime
    ensures
      var reply, i := Answer(strategy, rows, consumed, input), input.candleIndex;
      !reply.Refuse? ==>
        var action := strategy(DomainCandles(rows[..i + 1])).action;
        && (reply.Abstain? <==> action.Hold?)
        && (reply.Decide? && reply.decision.action == "buy" <==> action.Buy?)
        && (reply.Decide? && reply.decision.action == "sell" <==> action.Sell?)
        && (reply.Decide? ==>
              && reply.decision.candleIndex == i && reply.decision.signalTs == input.decisionTs
              && reply.decision.referencePrice == input.referencePrice && reply.decision.atr == input.atr)
  {
  }

  class StrategyDecisionProvider {
    const strategy: CandleStrategy
    const rows: seq<CandleRow>
    var nextIndex: nat

    constructor (strategy: CandleStrategy, rows: seq<CandleRow>)
      requires rows != []
      ensures this.strategy == strategy && this.rows == rows && nextIndex == 0
    {
      this.strategy, this.rows, nextIndex := strategy, rows, 0;
    }

    /** The index advances once the sequencing checks pass, even if the signal is then refused. */
    method DecideOn(input: DecisionInput) returns (reply: Reply)
      modifies this
      ensures reply == Answer(strategy, rows, old(nextIndex), input)
      ensures nextIndex == old(nextIndex) + if OutOfSequence(rows, old(nextIndex), input) then 0 else 1
      ensures !reply.Refuse? ==>
        var action := strategy(DomainCandles(rows[..input.candleIndex + 1])).action;
        && (reply.Abstain? <==> action.Hold?)
        && (reply.Decide? && reply.decision.action == "buy" <==> action.Buy?)
        && (reply.Decide? && reply.decision.action == "sell" <==> action.Sell?)
    {
      if input.candleIndex != nextIndex {
        return Refuse;
      }
      if input.candleIndex >= |rows| {
        return Refuse;
      }
      var row := rows[input.candleIndex];
      if input.decisionTs != row.closeTime {
        return Refuse;
      }
      nextIndex := nextIndex + 1;
      var signal := strategy(DomainCandles(rows[..input.candleIndex + 1]));
      if signal.ts != row.openTime {
        return Refuse;
      }
      match signal.action {
        case Hold => return Abstain;
        case Buy =>
          return Decide(Decision("buy", input.decisionTs, input.referencePrice, input.candleIndex, input.atr));
        case Sell =>
          return Decide(Decision("sell", input.decisionTs, input.referencePrice, input.candleIndex, input.atr));
      }
    }
  }

  /** The same provider as a function of the calls made to it: the ones before the last are its memory. */
  function StrategyProvider(strategy: CandleStrategy, rows: seq<CandleRow>): Provider {
    (shown: seq<DecisionInput>) =>
      if shown == [] then Refuse else Answer(strategy, rows, |shown| - 1, shown[|shown| - 1])
  }

  /** The object, asked one input after the other, answers each as the function does and remembers each. */
  method Serve(p: StrategyDecisionProvider, inputs: seq<DecisionInput>) returns (replies: seq<Reply>)
    requires p.nextIndex == 0 && forall j :: 0 <= j < |inputs| ==> !OutOfSequence(p.rows, j, inputs[j])
    modifies p
    ensures p.nextIndex == |inputs| == |replies|
    ensures forall j {:trigger replies[j]} :: 0 <= j < |inputs| ==>
      replies[j] == StrategyProvider(p.strategy, p.rows)(inputs[..j + 1])
  {
    replies := [];
    for j := 0 to |inputs|
      invariant p.nextIndex == j == |replies|
      invariant forall i {:trigger replies[i]} :: 0 <= i < j ==>
        replies[i] == StrategyProvider(p.strategy, p.rows)(inputs[..i + 1])
    {
      var reply := p.DecideOn(inputs[j]);
      assert inputs[..j + 1][j] == inputs[j];
      replies := replies + [reply];
    }
  }

  /** No call the engine ever makes, to any provider on any feed, is out of sequence: the `j`-th call is about candle
      `j`, at its close. */
  lemma {:induction false} CallsAreInSequence(env: Env, n: nat, j: nat)
    requires n <= |env.trades|
    ensures After(env, n).Ok? && j < |After(env, n).value.asked| ==>
      !OutOfSequence(env.candles, j, After(env, n).value.asked[j])
    ensures Run(env).Ok? && j < |Run(env).value.asked| ==>
      !OutOfSequence(env.candles, j, Run(env).value.asked[j])
  {
    hide After, Run;
    AfterInSequence(env, n);
    RunAsksInSequence(env);
    if After(env, n).Ok? && j < |After(env, n).value.asked| {
      ShownAt(env, After(env, n).value.candleI, j);
    }
    if Run(env).Ok? && j < |Run(env).value.asked| {
      ShownAt(env, Run(env).value.candleI, j);
    }
  }

  /** Nor is the next one, which a refusal would end the run with. */
  lemma {:induction false} NextCallInSequence(env: Env, n: nat)
    requires n <= |env.trades|
    ensures After(env, n).Ok? && After(env, n).value.candleI < |env.candles| ==>
      var st := After(env, n).value;
      !OutOfSequence(env.candles, |st.asked|, InputAt(env, st.candleI))
  {
    hide After;
    AfterInSequence(env, n);
  }

  /** A strategy that stamps every signal with the open time of the candle it was shown last. */
  ghost predicate Stamps(strategy: CandleStrategy) {
    forall cs: seq<Indicators.Candle> :: cs != [] ==> strategy(cs).ts == cs[|cs| - 1].ts
  }

  /** Asked about every candle in turn, a strategy provider refuses none and gives only genuine decisions. */
  lemma {:induction false} StrategyProviderFaithful(env: Env, strategy: CandleStrategy)
    requires env.provider == StrategyProvider(strategy, env.candles) && Stamps(strategy)
    ensures Faithful(env)
  {
    forall n: nat | 0 < n <= |env.candles|
      ensures !ReplyTo(env, n).Refuse?
      ensures ReplyTo(env, n).Decide? ==> Genuine(env, ReplyTo(env, n).decision, n - 1)
    {
      var shown := Shown(env, n);
      assert shown[n - 1] == InputAt(env, n - 1);
      var cs := DomainCandles(env.candles[..n]);
      assert cs[n - 1].ts == env.candles[n - 1].openTime;
    }
  }

  /** So no run of the engine ever ends in a refusal of a strategy provider. */
  lemma {:induction false} StrategyProviderNeverRefuses(env: Env, strategy: CandleStrategy)
    requires Sorted(env) && env.provider == StrategyProvider(strategy, env.candles) && Stamps(strategy)
    ensures Run(env).Raised? ==> Run(env).fault != ProviderRefused
  {
    StrategyProviderFaithful(env, strategy);
    RunWellTimed(env);
  }

  /** The scripted schedule that validates the contract. */
  function ScriptedReply(input: DecisionInput): Reply {
    var i := input.candleIndex;
    if i >= 14 && i % 12 == 5 then
      if input.atr.None? then Abstain
      else Decide(Decision("buy", input.decisionTs, input.referencePrice, i, input.atr))
    else if i >= 25 && i % 12 == 1 then
      Decide(Decision("sell", input.decisionTs, input.referencePrice, i, input.atr))
    else Abstain
  }

  function ScriptedProvider(): Provider {
    (shown: seq<DecisionInput>) => if shown == [] then Abstain else ScriptedReply(shown[|shown| - 1])
  }

  lemma {:induction false} ScriptedProviderFaithful(env: Env)
    requires env.provider == ScriptedProvider()
    ensures Faithful(env)
  {
    forall n: nat | 0 < n <= |env.candles|
      ensures !ReplyTo(env, n).Refuse?
      ensures ReplyTo(env, n).Decide? ==> Genuine(env, ReplyTo(env, n).decision, n - 1)
    {
      var shown := Shown(env, n);
      assert shown[n - 1] == InputAt(env, n - 1);
    }
  }
}
