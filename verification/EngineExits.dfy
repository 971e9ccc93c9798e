/** The exit rules as the engines run them: sessions and replays leave a position where the rules say. */
module EngineExits {
  import opened Numerics
  import opened ExitAgreement
  import P = PaperTrading
  import R = Replay
  import Risk
  import Portfolio

  // ---- the paper engine

  function TickPrices(ticks: seq<P.Tick>): (r: seq<real>)
    ensures |r| == |ticks| && forall i :: 0 <= i < |r| ==> r[i] == ticks[i].price
  {
    seq(|ticks|, i requires 0 <= i < |ticks| => ticks[i].price)
  }

  /** The first tick of a session going on from `st` at which the engine fills an order, and its exit reason. */
  function PaperRun(su: P.Setup, st: P.EngineState, ticks: seq<P.Tick>): Option<Exit>
    decreases |ticks|
  {
    if ticks == [] then None
    else
      match P.SessionStep(su, st, ticks[0])
      case None => None
      case Some((next, event)) =>
        if event.filled then Some(Exit(0, event.exitReason)) else Later(PaperRun(su, next, ticks[1..]))
  }

  /** Ticks in time order with a constant ATR, none of which decides to sell. */
  predicate Quiet(last: Option<int>, ticks: seq<P.Tick>, atr: real)
    decreases |ticks|
  {
    ticks == [] ||
    (&& (last.Some? ==> last.value <= ticks[0].ts) && ticks[0].atr == Some(atr) && !ticks[0].decision.action.Sell?
     && Quiet(Some(ticks[0].ts), ticks[1..], atr))
  }

  lemma {:induction false} NoSecondBuy(ar: Arith, cfg: Risk.RiskConfig, p: Risk.TradeProposal, s: Risk.RiskState)
    requires p.action.Buy? && s.openPositions >= cfg.maxOpenPositions
    ensures !Risk.Evaluate(ar, cfg, p, s).approved
  {
  }

  /** A decision that is not a sell leaves an open position as it is. */
  lemma {:induction false} DecisionKeepsPosition(su: P.Setup, st: P.EngineState, t: P.Tick)
    requires su.risk.maxOpenPositions <= 1 && st.position.Some? && !t.decision.action.Sell?
    ensures
      var (next, outcome) := P.Decide(su, st, t.killActive, t.decision, t.price, t.atr, t.ts);
      outcome.Done? && !outcome.event.filled && next.position == st.position && next.lastTs == st.lastTs
  {
    hide Risk.Evaluate;
    if t.decision.action.Buy? {
      NoSecondBuy(su.ar, su.risk, Risk.TradeProposal(t.decision.action, t.decision.intensity, t.price, t.atr),
                  P.RiskView(su, st, t.killActive, t.price));
    }
  }

  /** One such tick: the position is raised, and then it is closed for the reason the rule gives, or kept. */
  lemma {:induction false} QuietTick(su: P.Setup, st: P.EngineState, t: P.Tick, atr: real)
    requires su.risk.maxOpenPositions <= 1 && st.position.Some? && !t.decision.action.Sell? && t.atr == Some(atr)
    requires st.lastTs.Some? ==> st.lastTs.value <= t.ts
    ensures P.SessionStep(su, st, t).Some?
    ensures
      var (next, event) := P.SessionStep(su, st, t).value;
      var raised := P.Raise(su, st.position.value, t.price, atr);
      match P.ExitReason(raised, t.price)
      case Some(reason) => event.filled && event.exitReason == reason
      case None => !event.filled && next.position == Some(raised) && next.lastTs == Some(t.ts)
  {
    hide P.Decide;
    var seen := P.Arrive(st, t.price, t.atr, t.ts);
    var held := seen.(position := Some(P.Raise(su, seen.position.value, t.price, atr)));
    DecisionKeepsPosition(su, held, t);
  }

  /** A session that is not told to sell leaves its position exactly where the rule does, under any arithmetic. */
  lemma {:induction false} SessionExits(su: P.Setup, st: P.EngineState, ticks: seq<P.Tick>, atr: real)
    requires su.risk.maxOpenPositions <= 1 && st.position.Some? && Quiet(st.lastTs, ticks, atr)
    ensures PaperRun(su, st, ticks) == PaperExit(su, st.position.value, TickPrices(ticks), atr)
    decreases |ticks|
  {
    hide P.SessionStep, P.Raise, P.ExitReason;
    if ticks != [] {
      QuietTick(su, st, ticks[0], atr);
      var (next, event) := P.SessionStep(su, st, ticks[0]).value;
      assert TickPrices(ticks)[1..] == TickPrices(ticks[1..]);
      if !event.filled {
        SessionExits(su, next, ticks[1..], atr);
      }
    }
  }

  // ---- the replay

  function TradePrices(env: R.Env, i: nat): (r: seq<real>)
    requires i <= |env.trades|
    ensures |r| == |env.trades| - i && forall k :: 0 <= k < |r| ==> r[k] == env.trades[i + k].price
  {
    seq(|env.trades| - i, k requires 0 <= k < |env.trades| - i => env.trades[i + k].price)
  }

  /** The first trade from `i` on at which a replay going on from `st` triggers an exit, and why. */
  function ReplayRun(env: R.Env, st: R.State, i: nat): Option<Exit>
    requires i <= |env.trades|
    decreases |env.trades| - i
  {
    if i == |env.trades| then None
    else
      match R.Step(env, st, i)
      case Raised(_) => None
      case Ok(next) =>
        if next.pending.Some? then Some(Exit(0, next.pending.value.reason)) else Later(ReplayRun(env, next, i + 1))
  }

  /** A provider that answers every input and never sells. */
  ghost predicate NeverSells(env: R.Env) {
    forall asked: seq<R.DecisionInput> ::
      env.provider(asked).Abstain? || (env.provider(asked).Decide? && env.provider(asked).decision.action == "buy")
  }

  predicate OnlyBuys(queue: seq<R.Decision>) {
    forall i :: 0 <= i < |queue| ==> queue[i].action == "buy"
  }

  /** The ATR that trails a dynamic position does not move with the candles still to come. */
  predicate AtrStands(env: R.Env, from: nat, atr: real) {
    env.scenario.dynamic ==>
      forall c :: from <= c < |env.candles| && R.AtrOf(env, c).Some? ==> R.AtrOf(env, c).value == atr
  }

  /** An open position with nothing to close it but its own levels. */
  predicate Untouched(env: R.Env, st: R.State) {
    && st.position.Some? && st.pending.None? && OnlyBuys(st.queue)
    && AtrStands(env, st.candleI, st.position.value.currentAtr)
  }

  lemma {:induction false} ConfirmUntouched(env: R.Env, st: R.State)
    requires NeverSells(env) && Untouched(env, st) && st.candleI < |env.candles|
    ensures R.Confirm(env, st).Ok?
    ensures
      var next := R.Confirm(env, st).value;
      Untouched(env, next) && next.position == st.position && next.candleI == st.candleI + 1
  {
    hide R.AtrOf;
  }

  lemma {:induction false} AdvanceUntouched(env: R.Env, st: R.State, cutoff: int)
    requires NeverSells(env) && Untouched(env, st)
    ensures R.Advance(env, st, cutoff).Ok?
    ensures Untouched(env, R.Advance(env, st, cutoff).value)
    ensures R.Advance(env, st, cutoff).value.position == st.position
    decreases |env.candles| - st.candleI
  {
    hide R.Confirm, Untouched, NeverSells;
    if st.candleI < |env.candles| && env.candles[st.candleI].closeTime <= cutoff {
      ConfirmUntouched(env, st);
      AdvanceUntouched(env, R.Confirm(env, st).value, cutoff);
    }
  }

  /** Buys find the position open and are dropped. */
  lemma {:induction false} DrainUntouched(env: R.Env, st: R.State, trade: R.ReplayTrade, index: nat)
    requires Untouched(env, st)
    ensures R.Drain(env.scenario, st, trade, index).Ok?
    ensures
      var next := R.Drain(env.scenario, st, trade, index).value;
      Untouched(env, next) && next.position == st.position
    decreases |st.queue|
  {
    if st.queue != [] {
      var popped := st.(queue := st.queue[1..]);
      DrainUntouched(env, R.DropDecision(popped), trade, index);
    }
  }

  /** One trade: the exit is triggered for the reason the rule gives, or the position is raised. */
  lemma {:induction false} StepUntouched(env: R.Env, st: R.State, i: nat)
    requires NeverSells(env) && Untouched(env, st) && i < |env.trades|
    requires st.position.value.fillTs < env.trades[i].ts
    ensures R.Step(env, st, i).Ok?
    ensures
      var next := R.Step(env, st, i).value;
      var seen := R.Seen(st.position.value, env.trades[i].price);
      match R.ExitAt(seen, env.trades[i].price)
      case Some(reason) => next.pending.Some? && next.pending.value.reason == reason
      case None => Untouched(env, next) && next.position == Some(R.Raise(env.scenario, seen))
  {
    hide R.Advance, R.Drain, NeverSells, R.AtrOf;
    var trade := env.trades[i];
    AdvanceUntouched(env, st, trade.ts);
    var confirmed := R.Advance(env, st, trade.ts).value;
    DrainUntouched(env, confirmed, trade, i);
  }

  /** A replay whose provider never sells triggers the exit of a position exactly where the rule does. */
  lemma {:induction false} ReplayExits(env: R.Env, st: R.State, i: nat)
    requires NeverSells(env) && Untouched(env, st) && i <= |env.trades|
    requires forall k :: i <= k < |env.trades| ==> st.position.value.fillTs < env.trades[k].ts
    ensures ReplayRun(env, st, i) == ReplayExit(env.scenario, st.position.value, TradePrices(env, i))
    decreases |env.trades| - i
  {
    hide R.Step, Untouched, NeverSells, R.ExitAt, R.Raise;
    if i < |env.trades| {
      OpenPosition(env, st);
      StepUntouched(env, st, i);
      var next := R.Step(env, st, i).value;
      assert TradePrices(env, i)[1..] == TradePrices(env, i + 1);
      var seen := R.Seen(st.position.value, env.trades[i].price);
      if R.ExitAt(seen, env.trades[i].price).None? {
        OpenPosition(env, next);
        RaiseKeepsFill(env.scenario, seen);
        ReplayExits(env, next, i + 1);
      }
    }
  }

  lemma {:induction false} OpenPosition(env: R.Env, st: R.State)
    requires Untouched(env, st)
    ensures st.position.Some? && st.pending.None?
  {
  }

  lemma {:induction false} RaiseKeepsFill(sc: R.Scenario, pos: R.Position)
    ensures R.Raise(sc, pos).fillTs == pos.fillTs
  {
  }

  // ---- both

  /** The two engines over one path of positive prices: with the same position and a stop that starts caught up they
      leave at the same price for the same reason; with a stop that lags, a single price already parts them. */
  lemma {:induction false} EnginesLeaveAlike(
    su: P.Setup, paper: P.EngineState, ticks: seq<P.Tick>, env: R.Env, replay: R.State, i: nat, atr: real)
    requires su.risk.maxOpenPositions <= 1 && paper.position.Some? && Quiet(paper.lastTs, ticks, atr)
    requires NeverSells(env) && Untouched(env, replay) && i <= |env.trades|
    requires forall k :: i <= k < |env.trades| ==> replay.position.value.fillTs < env.trades[k].ts
    requires Matched(su, env.scenario, paper.position.value, replay.position.value, atr)
    requires TickPrices(ticks) == TradePrices(env, i) && Positive(TickPrices(ticks))
    ensures
      CaughtUp(env.scenario, replay.position.value, atr) ==>
        PaperRun(su, paper, ticks) == ReplayRun(env, replay, i)
    ensures
      !CaughtUp(env.scenario, replay.position.value, atr)
      && TickPrices(ticks) == [Candidate(env.scenario, replay.position.value, atr)] ==>
        PaperRun(su, paper, ticks) != ReplayRun(env, replay, i)
  {
    hide PaperRun, ReplayRun, PaperExit, ReplayExit, NeverSells, AtrStands, Quiet;
    var p, r := paper.position.value, replay.position.value;
    SessionExits(su, paper, ticks, atr);
    ReplayExits(env, replay, i);
    if CaughtUp(env.scenario, r, atr) {
      SamePath(su, env.scenario, p, r, TickPrices(ticks), atr);
    } else if TickPrices(ticks) == [Candidate(env.scenario, r, atr)] {
      LaggingStopDisagrees(su, env.scenario, p, r, atr);
    }
  }
}
