/** What a replay's records say: why each entry and exit was taken, and how far the price went in between. */
module ReplayRecords {
  import opened Numerics
  import opened Replay
  import opened ReplayCalls
  import opened ReplayCausality
  import opened ReplayLedger
  import opened ReplayTiming
  import opened ReplayProviders
  import Indicators
  import IndicatorMeaning
  import Portfolio

  // ---- the strategy behind entries and exits

  /** The candles a strategy has been shown once row `c` has closed: each stamped with the open time of its row. */
  function CandlesTo(rows: seq<CandleRow>, c: nat): seq<Indicators.Candle>
    requires c < |rows|
  {
    seq(c + 1, k requires 0 <= k < c + 1 =>
      var row := rows[k];
      Indicators.Candle(row.openTime, row.open, row.high, row.low, row.close, row.volume, 0.0))
  }

  /** What a strategy said then. */
  function SignalAt(env: Env, strategy: CandleStrategy, c: nat): StrategySignal
    requires c < |env.candles|
  {
    strategy(CandlesTo(env.candles, c))
  }

  /** A strategy provider decides to buy on a candle exactly if the strategy says so, and to sell likewise. */
  lemma {:induction false} SaysWhatStrategySays(env: Env, strategy: CandleStrategy, c: nat)
    requires env.provider == StrategyProvider(strategy, env.candles) && Stamps(strategy) && c < |env.candles|
    ensures Says(env, c, "buy") <==> SignalAt(env, strategy, c).action.Buy?
    ensures Says(env, c, "sell") <==> SignalAt(env, strategy, c).action.Sell?
    ensures ReplyTo(env, c + 1).Abstain? <==> SignalAt(env, strategy, c).action.Hold?
  {
    hide DomainCandles, CandlesTo, AtrOf, ContextAt;
    var shown := Shown(env, c + 1);
    assert shown[c] == InputAt(env, c);
    CandlesShown(env.candles, c);
    AnswerMeans(strategy, env.candles, c, shown[c]);
  }

  lemma {:induction false} CandlesShown(rows: seq<CandleRow>, c: nat)
    requires c < |rows|
    ensures DomainCandles(rows[..c + 1]) == CandlesTo(rows, c) && CandlesTo(rows, c)[c].ts == rows[c].openTime
  {
  }

  /** A strategy exit, and a candle before it on which the strategy said to sell. */
  predicate SoldBySignal(env: Env, strategy: CandleStrategy, r: Record, c: nat) {
    && c < |env.candles| && r.exitFillIndex < |env.trades|
    && FirstEligible(env, c, r.exitFillIndex) && SignalAt(env, strategy, c).action.Sell?
  }

  lemma {:induction false} EntryOfRecord(env: Env, r: Record)
    requires WellTimed(env, r)
    ensures r.entry.fillIndex < |env.trades| && FirstEligible(env, r.entry.candleIndex, r.entry.fillIndex)
    ensures Says(env, r.entry.candleIndex, "buy")
  {
    hide Untouched, StopsOk, Ranged, Trailed, RangedWith, Trips, Says, FirstEligible;
  }

  lemma {:induction false} ExitOfRecord(env: Env, r: Record) returns (c: nat)
    requires WellTimed(env, r) && r.exitReason == "strategy_exit"
    ensures SoldOn(env, r, c)
  {
    hide FilledAt, Untouched, Ranged, Trailed, RangedWith, Trips, SoldOn;
    c :| c < |env.candles| && SoldOn(env, r, c);
  }

  /** Every entry of a strategy's replay was bought on a candle on which the strategy said to buy, and every strategy
      exit sold on one on which it said to sell, each at the first trade eligible for it. */
  lemma {:induction false} RecordsFollowSignals(env: Env, strategy: CandleStrategy, i: nat)
    requires Sorted(env) && env.provider == StrategyProvider(strategy, env.candles) && Stamps(strategy)
    requires Run(env).Ok? && i < |Run(env).value.records|
    ensures
      var r := Run(env).value.records[i];
      && r.entry.candleIndex < |env.candles| && r.entry.fillIndex < |env.trades|
      && FirstEligible(env, r.entry.candleIndex, r.entry.fillIndex)
      && SignalAt(env, strategy, r.entry.candleIndex).action.Buy?
      && (r.exitReason == "strategy_exit" ==> exists c: nat :: SoldBySignal(env, strategy, r, c))
  {
    hide Run, WellTimed, Faithful, SignalAt, FirstEligible;
    StrategyProviderFaithful(env, strategy);
    RunWellTimed(env);
    var r := Run(env).value.records[i];
    EntryOfRecord(env, r);
    SaysWhatStrategySays(env, strategy, r.entry.candleIndex);
    if r.exitReason == "strategy_exit" {
      var c := ExitOfRecord(env, r);
      SaysWhatStrategySays(env, strategy, c);
      assert SoldBySignal(env, strategy, r, c);
    }
  }

  /** The scripted schedule buys on every twelfth candle from the seventeenth on that has an ATR, and sells on every
      twelfth from the twenty-fifth on. */
  lemma {:induction false} ScriptedSays(env: Env, c: nat)
    requires env.provider == ScriptedProvider() && c < |env.candles|
    ensures Says(env, c, "buy") <==> c >= 17 && (c - 17) % 12 == 0 && AtrOf(env, c).Some?
    ensures Says(env, c, "sell") <==> c >= 25 && (c - 25) % 12 == 0
  {
    hide AtrOf;
    var shown := Shown(env, c + 1);
    assert shown[c] == InputAt(env, c);
  }

  // ---- how far the price went

  /** Trade `j` was one the position lived through: after its fill, and up to the trade that triggered its exit. */
  predicate Lived(env: Env, r: Record, j: nat) {
    && r.entry.fillIndex < |env.trades| && j < |env.trades|
    && ((j > r.entry.fillIndex && env.trades[j].ts > r.entry.fillTs
         && j <= (if RiskReason(r.exitReason) then r.exitTriggerIndex.GetOr(0) else r.exitFillIndex))
        || (r.exitReason == "strategy_exit" && j == r.exitFillIndex))
  }

  lemma {:induction false} ExtremesReached(env: Env, p: Position, j: nat)
    requires p.fillIndex <= j < |env.trades|
    ensures LowestBy(env, p, j) <= p.executionPrice <= HighestBy(env, p, j)
    ensures forall k :: p.fillIndex < k <= j && Eligible(env, p, k) ==>
      LowestBy(env, p, j) <= env.trades[k].price <= HighestBy(env, p, j)
    ensures HighestBy(env, p, j) == p.executionPrice ||
      exists k :: p.fillIndex < k <= j && Eligible(env, p, k) && env.trades[k].price == HighestBy(env, p, j)
    ensures LowestBy(env, p, j) == p.executionPrice ||
      exists k :: p.fillIndex < k <= j && Eligible(env, p, k) && env.trades[k].price == LowestBy(env, p, j)
    decreases j
  {
    if j > p.fillIndex {
      ExtremesReached(env, p, j - 1);
    }
  }

  /** A record's favourable and adverse excursions are the furthest the price rose above and fell below its entry among
      the trades it lived through, and zero if it never did. */
  predicate Excursions(env: Env, r: Record) {
    var entry := r.entry.executionPrice;
    && r.mfe >= 0.0 && r.mae >= 0.0
    && (forall j :: 0 <= j < |env.trades| && Lived(env, r, j) ==>
          env.trades[j].price - entry <= r.mfe && entry - env.trades[j].price <= r.mae)
    && (r.mfe > 0.0 ==> exists j :: 0 <= j < |env.trades| && Lived(env, r, j) && env.trades[j].price - entry == r.mfe)
    && (r.mae > 0.0 ==> exists j :: 0 <= j < |env.trades| && Lived(env, r, j) && entry - env.trades[j].price == r.mae)
  }

  /** The extremes are reached on trades up to `e`, or at trade `x` besides. */
  lemma {:induction false} ExcursionsReached(env: Env, r: Record, e: nat, x: Option<nat>)
    requires r.entry.fillIndex <= e < |env.trades| && (x.Some? ==> x.value < |env.trades|)
    requires r.mfe == Max(r.entry.highest - r.entry.executionPrice, 0.0)
    requires r.mae == Max(r.entry.executionPrice - r.entry.lowest, 0.0)
    requires
      r.entry.highest ==
      if x.None? then HighestBy(env, Opening(r.entry), e)
      else Max(HighestBy(env, Opening(r.entry), e), env.trades[x.value].price)
    requires
      r.entry.lowest ==
      if x.None? then LowestBy(env, Opening(r.entry), e)
      else Min(LowestBy(env, Opening(r.entry), e), env.trades[x.value].price)
    requires forall j :: 0 <= j < |env.trades| ==>
      (Lived(env, r, j)
       <==> (r.entry.fillIndex < j <= e && Eligible(env, Opening(r.entry), j)) || x == Some(j))
    ensures Excursions(env, r)
  {
    hide Lived, HighestBy, LowestBy, Eligible;
    var p := Opening(r.entry);
    ExtremesReached(env, p, e);
    if r.mfe > 0.0 && r.entry.highest == HighestBy(env, p, e) {
      var k :| p.fillIndex < k <= e && Eligible(env, p, k) && env.trades[k].price == HighestBy(env, p, e);
      assert Lived(env, r, k);
    } else if r.mfe > 0.0 {
      assert Lived(env, r, x.value);
    }
    if r.mae > 0.0 && r.entry.lowest == LowestBy(env, p, e) {
      var k :| p.fillIndex < k <= e && Eligible(env, p, k) && env.trades[k].price == LowestBy(env, p, e);
      assert Lived(env, r, k);
    } else if r.mae > 0.0 {
      assert Lived(env, r, x.value);
    }
  }

  lemma {:induction false} RiskExitExcursions(env: Env, r: Record)
    requires RiskReason(r.exitReason) && RiskExit(env, r)
    ensures Excursions(env, r)
  {
    ExcursionsReached(env, r, r.exitTriggerIndex.value, None);
  }

  lemma {:induction false} EndExitExcursions(env: Env, r: Record)
    requires EndExit(env, r)
    ensures Excursions(env, r)
  {
    ExcursionsReached(env, r, r.exitFillIndex, None);
  }

  lemma {:induction false} StrategyExitExcursions(env: Env, r: Record)
    requires StrategyExit(env, r)
    ensures Excursions(env, r)
  {
    ExcursionsReached(env, r, LastBefore(r.entry, r.exitFillIndex), Some(r.exitFillIndex));
  }

  /** So for every record of a complete replay. */
  lemma {:induction false} RunExcursions(env: Env, i: nat)
    requires Sorted(env) && Faithful(env) && Run(env).Ok? && i < |Run(env).value.records|
    ensures Excursions(env, Run(env).value.records[i])
  {
    hide Run, RiskExit, StrategyExit, EndExit, Excursions;
    RunWellTimed(env);
    var r := Run(env).value.records[i];
    assert WellTimed(env, r);
    if RiskReason(r.exitReason) && RiskExit(env, r) {
      RiskExitExcursions(env, r);
    } else if StrategyExit(env, r) {
      StrategyExitExcursions(env, r);
    } else {
      EndExitExcursions(env, r);
    }
  }

  // ---- what the provider was shown

  /** The last row of a series that has closed by `ts`, if any has. */
  predicate LastClosed(rows: seq<CandleRow>, ts: int, found: Option<CandleRow>) {
    && (found.Some? ==> found.value in rows && found.value.closeTime <= ts)
    && (forall r :: r in rows && r.closeTime <= ts ==> found.Some? && r.closeTime <= found.value.closeTime)
  }

  /** How far a row reaches: from its low to its high, or from the close before it if that lies outside. */
  function Reach(prev: CandleRow, row: CandleRow): real {
    Max(row.high - row.low, Max(Abs(row.high - prev.close), Abs(row.low - prev.close)))
  }

  /** The reaches of rows 1 to `n`, added up. */
  function ReachSum(rows: seq<CandleRow>, n: nat): real
    requires n < |rows|
  {
    if n == 0 then 0.0 else ReachSum(rows, n - 1) + Reach(rows[n - 1], rows[n])
  }

  lemma {:induction false} ReachesAdd(rows: seq<CandleRow>, n: nat)
    requires n < |rows|
    ensures Total(Indicators.TrueRanges(Exact, DomainCandles(rows), n)) == ReachSum(rows, n)
  {
    if n > 0 {
      ReachesAdd(rows, n - 1);
      var before := Indicators.TrueRanges(Exact, DomainCandles(rows), n - 1);
      var ranges := Indicators.TrueRanges(Exact, DomainCandles(rows), n);
      assert ranges[..|ranges| - 1] == before;
    }
  }

  /** The ATR a call shows: none for the first rows, then the mean reach of a period, then that reach smoothed with
      every row that closes. */
  lemma {:induction false} AtrOfRows(env: Env, i: nat)
    requires i < |env.candles|
    ensures
      var period, rows := env.scenario.atrPeriod, env.candles;
      && (AtrOf(env, i).Some? <==> i >= period)
      && (i == period ==> IndicatorMeaning.Divides(AtrOf(env, i).value, ReachSum(rows, period), period as real))
      && (i > period ==>
            && AtrOf(env, i - 1).Some?
            && IndicatorMeaning.Smooths(
                 AtrOf(env, i).value, AtrOf(env, i - 1).value, Reach(rows[i - 1], rows[i]), period))
  {
    hide ReachSum, Reach, IndicatorMeaning.Divides, IndicatorMeaning.Smooths, Indicators.AtrAt, Indicators.TrueRanges;
    hide Indicators.TrueRange, DomainCandle;
    var period, rows := env.scenario.atrPeriod, env.candles;
    IndicatorMeaning.AtrMeans(DomainCandles(rows), period, i);
    if i == period {
      ReachesAdd(rows, period);
    } else if i > period {
      ReachIsRange(rows[i - 1], rows[i]);
    }
  }

  lemma {:induction false} ReachIsRange(prev: CandleRow, row: CandleRow)
    ensures Indicators.TrueRange(Exact, DomainCandle(prev).close, DomainCandle(row)) == Reach(prev, row)
  {
  }

  /** Call `j` of a run shows candle `j` at its close, with its ATR, the last 1h row closed by then as the 1h context
      and the last 4h row as the 4h context. */
  lemma {:induction false} CallsShowTheirContext(env: Env, j: nat)
    requires Sorted(env) && Run(env).Ok? && j < |Run(env).value.asked|
    ensures j < |env.candles|
    ensures
      var input, c := Run(env).value.asked[j], env.candles[j];
      && input.candleIndex == j && input.row == c && input.decisionTs == c.closeTime == input.context.decisionTs
      && input.referencePrice == c.close && input.atr == AtrOf(env, j)
      && LastClosed(env.h1, c.closeTime, input.context.h1) && LastClosed(env.h4, c.closeTime, input.context.h4)
  {
    hide Run, AtrOf, ContextAt;
    RunAsksInSequence(env);
    ShownAt(env, Run(env).value.candleI, j);
    ContextIsCausal(env.h1, env.candles[j].closeTime);
    ContextIsCausal(env.h4, env.candles[j].closeTime);
  }
}
