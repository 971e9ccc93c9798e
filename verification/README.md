# A verified model of the trading engines

This project models the two execution engines of the trading system, the accounts they keep, and the fast, streaming or
mirrored computations that have to agree with them, and proves what ties these parts together.

* **Account** (`Portfolio`, `Conservation`): long-only spot accounting, and the conservation of money under any sequence
  of buys and partial sells.
* **Risk** (`Risk`, `RiskMeaning`): guards, stops, sizing and the verdict; the verdict in money.
* **Paper engine** (`PaperEngine`, `PaperSafety`, `DailyLoss`, `PeakEquity`, `PaperMeaning`, `PaperLimits`): one price
  tick through ordering check, day roll, protective exits, risk verdict and order; what every tick does and every session
  keeps, and where the guarantees end.
* **Accounting mirror** (`Reconciliation`, `ReconciliationProofs`, `TiedCursor`): the session log refolded, in full and
  from a checkpoint, and the three-way reconciliation.
* **Session traces** (`TradeTrace`): trades rebuilt from the event log; walk-forward windows.
* **Runner and recovery** (`PaperRunner`, `RunnerRecovery`, `RecoveryDivergence`, `SharedStrategy`, `RegimeMeaning`,
  `RunnerMeaning`, `DeliveryMeaning`): candle delivery, crash recovery by replay, stored decision contexts, regime
  evidence, and one strategy shared by several symbols.
* **Trade replay** (`Replay`, `ReplayCausality`, `ReplayLedger`, `ReplaySizing`, `ReplayTiming`, `ReplayFates`,
  `ReplayCalls`, `ReplayProviders`, `ReplayRecords`, `ReplayAccounting`): the two-clock engine in which confirmed candles
  enqueue decisions and trades drain them, and its whole-run properties.
* **Exit rules** (`ExitAgreement`, `EngineExits`): when the two engines leave a position at the same price for the same
  reason, first of the rules and then of runs of the engines.
* **Indicators** (`Indicators`, `Strategy`, `Adx`, `IndicatorBounds`, `IndicatorMeaning`): whole-series indicators,
  their streaming forms, the crossing strategy, bounds, and the equations the values satisfy.
* **Backtest and learning pipeline** (`Backtest`, `BacktestProofs`, `BacktestMeaning`, `Features`, `MlPipeline`,
  `MlMeaning`, `MlCausality`): the next-bar backtest, feature rows, walk-forward training, and the absence of lookahead.
* **Candles** (`Aggregation`): one-pass aggregation of trades into candles against its specification, and roll-up.
* **Refresh** (`Refresh`, `RefreshProofs`, `RefreshMeaning`, `RefreshWorld`): the resumable layer/day protocol with failures, kills and
  restarts, first over what a run records, then over the files its operations list.

## How the model is built

Prices, quantities and money are `real`, timestamps are `int` milliseconds. Code that the repository writes with mutable
objects and loops is a class with fields and methods, or a method with a loop; each method is proved to compute a
function of its inputs or of the state before the call, and the properties are lemmas about those functions.

Where "the same bits" is the claim, the arithmetic is a parameter (`Numerics.Arith`): addition, subtraction,
multiplication, division and the built-in sum are arbitrary functions, so a result proved for every `Arith` holds under
any rounding. `Exact` is the instance used where a result needs the laws of the reals.

A stateful but deterministic collaborator (a decision provider, a strategy, a regime classifier, a learner) is a function
of everything it has been shown so far. An exception of a function or method is an `Option`, an `Outcome` or a flag in
the result, never a precondition; an object whose constructor would raise (an indicator tracker with a period below one)
cannot be constructed.

Every lemma carries `{:induction false}`: proofs by induction are written out, none is left to the automatic hypothesis.

Where a property is not true of the code in general, the code was kept, and what is proved is when it holds:

* with a taker fee of at most 10 bps a paper session raises exactly when its ticks are out of order
  (`PaperSafety.SessionSolvent`); the engine's buy raises exactly when it had to be cut down and the taker fee is above
  the 10 bps that dividing the cash by 1.001 leaves room for (`PaperLimits.OpenRaisesIff`), and an ordinary buy at
  20 bps does raise (`PaperLimits.CostlyBuyRaises`);
* its position stays in step with the account exactly when it only buys while flat, so more than one open position
  breaks it (`PaperLimits.EntryTracksIffFlat`, `PaperLimits.PyramidLosesTrack`);
* conservation of money is exact exactly when no sell leaves a dust remainder (`Conservation.ExactlyWhenNoDust`), and
  with fees that are not negative a flat account is worth its initial cash plus its nets exactly then
  (`Conservation.FlatEquityIffNoDust`);
* an honest log passes reconciliation against a checkpoint exactly when no later event that shares the checkpoint's
  timestamp is a fill (`TiedCursor.HonestPassesIffNoTiedFill`), and such ties are possible
  (`TiedCursor.TiedFillHappens`);
* recovery reaches the live state exactly when the kill switch stood as at recovery for every candle
  (`RunnerRecovery.RecoveryIffSwitchStood`);
* the strategy is shared by all symbols of a paper session, so the context stored for a candle is what recomputing its
  stream gives, whatever the candles, exactly when only one symbol came before it or everything the strategy reads is
  still warming up, periods of 1 aside (`SharedStrategy.RecomputedIffUnmixed`, `SharedStrategy.SessionsRecomputeIff`);
  with the default periods the fifteenth candle of a session can already differ
  (`SharedStrategy.MixedSessionHappens`);
* a candle on which the pipeline raised is remembered as seen, so delivering it again is silently ignored
  (`Runner.RefusedForGood`);
* the two engines' exit rules agree on every path exactly when the stop starts no lower than its trailing candidate
  (`ExitAgreement.AgreeIffCaughtUp`); for a fresh fixed-quantity entry that is a condition on the configuration
  (`ExitAgreement.FreshEntryAgreesIff`);
* the learning pipeline does not look ahead exactly when what follows does not change the number of usable rows, or
  fewer than two rows come before (`MlCausality.ActionsAgreeIff`); with no zero close that always holds
  (`MlCausality.NonZeroNeverReachesBack`), but a later zero close can change an earlier action
  (`MlCausality.LateZeroChangesEarlierAction`);
* a refresh that ends OK has all seven candle files of a day on disk exactly when no earlier attempt was stopped inside
  that day's candle step between listing its first file and placing its last, because the planner takes any one listed
  file for the whole day (`RefreshWorld.OkMeansCompleteIff`); it happens (`RefreshWorld.TornDayEndsOk`). Stopped between
  listing and placing a bronze or trades file, the refresh never ends OK over that day again
  (`RefreshWorld.LostFileBlocks`);
* the fills of a replay fit an account exactly when no entry costs more than the capital plus the net of the records
  before it (`ReplayAccounting.RunBooksAsAccount`);
* the refresh planner's day classes agree with those of the split guard exactly from the first development day on
  (`Refresh.ClassesAgreeIff`): the planner files earlier days under future collection although the guard calls them out
  of range.

## Model

| member | source | states |
|---|---|---|
| Portfolio.PortfolioAccount.Buy | src/domain/portfolio/portfolio.py:42-61 | a buy raises exactly when its cost is above the cash and the slack, and otherwise leaves the account of the specification, field by field |
| Portfolio.PortfolioAccount.Sell | src/domain/portfolio/portfolio.py:63-104 | a sell leaves the account of the specification: at most the position is sold, entry costs are charged pro rata, dust becomes flat |
| Conservation.MoneyConserved | src/domain/portfolio/portfolio.py:42-107 | after any buys and partial sells, cash, position at cost and pending entry fees equal initial cash plus realized profit short of dropped dust; profit, fees and slippage are the sums over the trades plus what is pending |
| Conservation.FlatEquity | src/domain/portfolio/portfolio.py:101-107 | at any price a flat account is worth its initial cash plus the net of its trades, less the cost of dropped dust and the entry fees left pending by the sells that dropped it; without dust exactly initial cash plus nets, with nothing pending |
| Conservation.FlatEquityIffNoDust | src/domain/portfolio/portfolio.py:101-107 | with fees that are not negative, flat equity is initial cash plus nets if and only if no sell leaves dust |
| Conservation.StrandedBounded | src/domain/portfolio/portfolio.py:76-104 | the entry fees a dropping sell leaves pending are at most the pending fee per unit times the dust quantity |
| Conservation.ExactlyWhenNoDust | src/domain/portfolio/portfolio.py:101-104 | conservation is exact if and only if no sell leaves a positive remainder at or below 1e-12 |
| Conservation.DropBounded | src/domain/portfolio/portfolio.py:101-104 | what one sell drops is at most the dust quantity at the average entry price, and nothing exactly when nothing is rounded away |
| Risk.EntryWithinCap | src/domain/risk/engine.py:66-123 | every approved buy has a positive size whose notional is within the allocation cap and the unleveraged capital |
| Risk.EntryNeedsEquity | src/domain/risk/guards.py:20-26 | an approved buy has equity above the share of the peak the drawdown limit leaves; with a limit of at most the whole, positive equity |
| RiskMeaning.ApprovedIff | src/domain/risk/engine.py:66-123 | an order passes if and only if no rule stands against it, and is otherwise rejected for the first that does: switch, drawdown as a share of the peak, for a sell no position, for a buy daily loss as a share of the capital, open positions, missing ATR, nothing to size |
| RiskMeaning.SizeMeans | src/domain/risk/sizing.py:26-72 | uncapped, the quantity times the stop distance is the capital times the intensity's share times the unused part of the drawdown limit; capped, the notional is the cap, and it is capped exactly when the cap loses less than that budget |
| RiskMeaning.EntryMeans | src/domain/risk/engine.py:66-123 | an approved entry has that size; its stop lies the multiple of the ATR below the price and its target the multiple of that distance above; without an ATR it is worth the cap and has no levels |
| Risk.KillSwitch.Activate | src/domain/risk/guards.py:67-71 | activation latches: the first reason and time stay however often it is repeated |
| Risk.KillSwitch.Reset | src/domain/risk/guards.py:77-86 | only a human reset with an approval identifier clears the switch; anything else is denied and changes nothing |
| PaperTrading.PaperEngine.OnPriceTick | src/application/services/paper_engine.py:132-195 | one tick on the engine object is the specified stage sequence: ordering check, clock and day roll, exits, verdict on the peak before marking, order |
| PaperTrading.PaperEngine.DecideTick | src/application/services/paper_engine.py:158-195 | the decision stage marks after reading the peak, counts rejections, and opens or closes as specified |
| PaperTrading.PaperEngine.CheckProtectiveExits | src/application/services/paper_engine.py:197-225 | highest price and trailing stop are raised before the stop and then the target are judged |
| PaperTrading.PaperEngine.ClosePosition | src/application/services/paper_engine.py:227-240 | closing sells the managed quantity, adds the realized difference to the day and marks at the execution price |
| PaperTrading.PaperEngine.OpenPosition | src/application/services/paper_engine.py:242-280 | opening cuts an unaffordable buy down to the cash over 1.001, applies it, and reports when it still exceeds the cash |
| PaperTrading.PaperEngine.AttachKillSwitch | src/application/services/paper_engine.py:121-123 | the attached switch replaces the engine's own, and nothing else changes |
| PaperTrading.RunTicks | src/lab/session_runner.py:129-162 | the session loop on the real engine object yields the specified session, or raises exactly when it does |
| PaperSafety.TickKeepsSolvent | src/application/services/paper_engine.py:132-280 | with one position at most and any taker fee up to the whole price, a tick keeps the engine long-only, solvent and in step with its account, even when it raises; it raises for its order exactly on a timestamp going back, and for its cost only above 10 bps |
| PaperSafety.ApprovedBuy | src/domain/risk/engine.py:66-123 | in a solvent engine a buy is approved only while flat, with positive cash, and below the daily loss limit |
| PaperSafety.SessionStaysSolvent | src/application/services/paper_engine.py:132-280 | in every state that a session of priced ticks reaches the position is the account's and cash is not below -1e-9, whatever the taker fee up to the whole price; its ticks were in order |
| PaperSafety.SessionSolvent | src/application/services/paper_engine.py:132-280 | with a taker fee of at most 10 bps a session of priced ticks raises if and only if its ticks are out of order |
| DailyLoss.SessionCounted | src/application/services/paper_engine.py:140-150 | in exact arithmetic, in every session that does not raise, whatever its fees, prices and number of positions, the day's realized figure is the sum of the net of the trades closed on the UTC day of the last tick |
| DailyLoss.SessionAccounted | src/domain/risk/guards.py:14-17 | with one position at most, a reached daily loss limit also means a flat account, in every state a session reaches |
| DailyLoss.HaltedUntilTomorrow | src/application/services/paper_engine.py:158-195 | once the daily loss limit is reached the engine is flat and no later tick of the session fills anything until the next UTC day |
| PeakEquity.PeakIsHighestMark | src/application/services/paper_engine.py:125-130 | under any arithmetic the peak of a session is the highest of its capital and every equity the account was marked at, at tick and at execution prices; no equity of its log is above it |
| PeakEquity.DrawdownHalts | src/domain/risk/guards.py:20-26 | a tick that finds the account fallen from the peak by the drawdown limit fills nothing but a protective exit, and rejects every decision |
| PaperMeaning.CloseSells | src/application/services/paper_engine.py:227-240 | a close sells the whole position below the price by the slippage, takes the fee from the proceeds and books one trade with the costs of both ends |
| PaperMeaning.OpenBuys | src/application/services/paper_engine.py:242-280 | an opening buys above the price by the slippage what was sized if the cash affords it with its fee, and otherwise what spends the cash over 1.001 |
| PaperMeaning.TickMeans | src/application/services/paper_engine.py:132-195 | a tick that does not raise trails the position and sells it if the price has left its levels; otherwise its decision is rejected for the first rule against it, with the counters that belong to that, or carried out: nothing for a hold, the whole position sold for a sell, for a buy a position of the allowed size with the verdict's levels, or a stop a billionth below the price without one |
| PaperMeaning.SessionMeans | src/application/services/paper_engine.py:132-195 | every line of the log of every session is what its tick does so to the engine it finds |
| PaperLimits.OpenRaisesIff | src/application/services/paper_engine.py:242-280 | an approved buy raises if and only if it was cut down and the taker fee is above 10 bps by more than the slack |
| PaperLimits.CostlyBuyRaises | src/application/services/paper_engine.py:256-259 | a concrete one-tick session at 20 bps raises |
| PaperLimits.EntryTracksIffFlat | src/application/services/paper_engine.py:242-280 | a filled buy, at any taker fee up to the whole price, leaves engine and account in agreement if and only if no position was open |
| PaperLimits.PyramidLosesTrack | src/application/services/paper_engine.py:242-280 | with two open positions allowed, two ordinary buys leave the engine managing less than it holds |
| Reconciliation.AdvanceOver | src/application/services/accounting_reconciliation.py:163-232 | the event loop computes the fold of the mirror's step over the events |
| Reconciliation.TickMirrored | src/application/services/accounting_reconciliation.py:288-390 | one mirror step over a logged event does to the mirror what the tick did to the account, bit for bit under any arithmetic |
| Reconciliation.SessionMirrored | src/application/services/accounting_reconciliation.py:163-232 | refolding the log of any session gives the engine's account bit for bit under any arithmetic |
| Reconciliation.SortSpec | src/application/services/accounting_reconciliation.py:561-600 | the order imposed on events is ascending, a permutation, and keeps ties in their original order |
| Reconciliation.ReconcileWithBook | src/application/services/accounting_reconciliation.py:523-646 | the procedural reconciliation computes the specified verdict, ledger, checkpoint, mismatches and residual |
| ReconciliationProofs.PassIff | src/application/services/accounting_reconciliation.py:561-646 | with a usable checkpoint the verdict passes exactly when full replay, resumed replay and live equity agree; residual zero and no mismatch exactly then |
| ReconciliationProofs.NeedsMarkIff | src/application/services/accounting_reconciliation.py:561-600 | a reconciliation raises if and only if it has no mark for a position left open by the full replay or by the replay from a usable checkpoint |
| ReconciliationProofs.LedgerIsAccount | src/application/services/accounting_reconciliation.py:523-646 | the ledger reported for the log of any session, and the checkpoint handed on, are the session's account worth its mark, field by field, under any arithmetic and whatever the checkpoint before |
| ReconciliationProofs.FirstPasses | src/application/services/accounting_reconciliation.py:568-577 | a reconciliation without a usable checkpoint passes with no mismatch, residual zero and the full ledger |
| ReconciliationProofs.VerdictNames | src/application/services/accounting_reconciliation.py:561-646 | with one, the verdict names exactly the compared components that differ, and its residual is the largest difference |
| ReconciliationProofs.ResumedAgrees | src/application/services/accounting_reconciliation.py:491-508 | resuming from the checkpoint of any prefix, slippage zeroed, agrees with the full replay on every compared component |
| ReconciliationProofs.CheckpointIsBook | src/application/services/accounting_reconciliation.py:491-508 | the checkpoint used is the one the reconciliation itself returns for that prefix |
| ReconciliationProofs.HonestLogPasses | src/application/services/accounting_reconciliation.py:523-646 | any session's grown log passes with residual zero against any checkpoint whose cursor no later event shares, under any arithmetic where adding zero times a price changes nothing |
| ReconciliationProofs.TamperedHistoryFails | src/application/services/accounting_reconciliation.py:523-646 | a log rewritten before the cursor fails if and only if its full replay differs from the honest one in a compared component or its last equity is not the replayed one |
| TiedCursor.HonestPassesIffNoTiedFill | src/application/services/accounting_reconciliation.py:561-600 | in every session that does not raise and whose fills cost something, an honest log passes if and only if no later event sharing the cursor's timestamp is a fill |
| TiedCursor.TiedFillHappens | src/application/services/paper_engine.py:136-140 | two ticks of one timestamp, a hold and then a filled buy, form a valid session |
| TiedCursor.SessionCharged | src/domain/portfolio/portfolio.py:42-104 | in every such session the fees of the account are those of the fills it logged |
| TradeTrace.TradesFromTrace | src/lab/walk_forward.py:57-84 | the scan over events with one open lot computes the specified fold |
| TradeTrace.TraceEqualsTrades | src/lab/walk_forward.py:57-84 | for every session that holds one position at a time, as the source states of it, and does not raise, the trades rebuilt from the log are the account's trades, field by field |
| TradeTrace.WalkForwardWindows | src/lab/walk_forward.py:38-54 | the windows are contiguous, cover the whole walk-forward range and differ in size by at most one; a bad count raises |
| Runner.PaperRunner.ProcessCandle | src/application/services/paper_runner.py:431-481 | the pipeline on the runner object is the specified one: window, regime, strategy, ATR, engine, context; when it raises, everything done before the raise stays done |
| Runner.PaperRunner.HandleCandle | src/application/services/paper_runner.py:399-429 | an older or conflicting candle is refused and changes nothing, a repeated one is ignored and changes nothing, a new one is processed; when processing raises the candle is remembered |
| Runner.RefusedForGood | src/application/services/paper_runner.py:408-422 | a conflict is refused again; a candle the pipeline raised on is ignored when delivered again, and a corrected one for its time is refused |
| DeliveryMeaning.AcceptedAreNew | src/application/services/paper_runner.py:399-429 | a live session takes exactly the deliveries that are newer than all before them of their stream |
| DeliveryMeaning.RunsIffInTime | src/application/services/paper_runner.py:399-481 | with a safe fee a live session of known symbols raises if and only if a new delivery is older than an earlier new one of any stream; repeats and conflicts never stop it |
| DeliveryMeaning.RefusalKeeps | src/application/services/paper_runner.py:399-481 | a conflict changes nothing; a raise of the pipeline loses nothing but the work of the engine: window, regime, strategy and ATR stand as if the engine had taken the candle |
| DeliveryMeaning.RaisedEngine | src/application/services/paper_engine.py:132-280 | an engine that raised keeps nothing of a tick out of order, and of a buy it cannot pay the clock, but neither money nor position |
| RegimeMeaning.TrackerMeans | src/application/services/regime_confirmation.py:43-83 | the tracker holds evidence of exactly the regimes named three times in a row, first seen where the first such streak began (at its confirmation if that time is zero), confirmed at its third and last seen at the latest third; it has rejected as many candidates as were given up before their third |
| RunnerMeaning.LiveEvidence | src/application/services/paper_runner.py:431-436 | in every live session that is the regime evidence of a symbol, on its accepted candles each classified with the last hundred up to it |
| RunnerMeaning.LiveIsSession | src/application/services/paper_runner.py:431-481 | the engine of a live session has run the paper session of the strategy's own decisions on everything accepted, with the ATR of each candle's symbol, and the persisted events are its log |
| Runner.PaperRunner.ReplayCandles | src/application/services/paper_runner.py:483-509 | the recovery loop computes the specified recovery or its first failure |
| RecoveryDivergence.NextOfRecovery | src/application/services/paper_runner.py:483-509 | recovery passes a candle if and only if action, fill, both reasons, switch, signal reason and regime are those persisted and every number is defined alike and within 1e-9, relative to the larger of the two and one; otherwise it stops there with a gap, a divergence or the raise |
| RunnerRecovery.RepeatsChangeNothing | src/application/services/paper_runner.py:399-429 | any delivery with repeated and conflicting candles gives the run of its accepted candles |
| RunnerRecovery.RecoveryIffSwitchStood | src/application/services/paper_runner.py:483-509 | replaying a session's candles on a fresh runner ends in the live state if and only if the kill switch stood as at recovery for every candle; otherwise it stops with a divergence |
| RecoveryDivergence.AlteredEvidenceDiverges | src/application/services/paper_runner.py:49-83 | a persisted event altered in any one of those fields, in a session whose other events stand, makes the recovery diverge at exactly that candle |
| RunnerRecovery.StoredContexts | src/application/services/paper_runner.py:431-481 | in every session, of however many symbols, a stored context is that of the whole-series definitions: signal, averages and RSI over all accepted candles, ATR and regime over those of its symbol |
| RunnerRecovery.OneSymbolRecomputes | src/application/services/decision_context.py:80-107 | the contexts a one-symbol session stored are what recomputing from its candles gives |
| RunnerRecovery.MixedSymbolsDiffer | src/application/services/decision_context.py:80-107 | under any arithmetic, a candle whose own stream is too short for an average or the RSI, in a session that is not, stores a context that recomputing does not give |
| SharedStrategy.RecomputedIffUnmixed | src/application/services/decision_context.py:80-107 | the context stored for the last of some candles is what recomputing its stream gives, whatever the candles, if and only if there is one symbol or nothing the strategy reads has warmed up (averages of period 1 and an RSI of period 1 after two candles of the symbol apart) |
| SharedStrategy.AllAccepted | src/application/services/paper_runner.py:399-481 | on a setup with a taker fee of at most 10 bps, candles of known symbols in time order are all accepted |
| SharedStrategy.SessionsRecomputeIff | src/application/services/paper_runner.py:431-481 | on such a setup every session over given streams stores for the last candle what recomputing gives if and only if the same condition holds |
| SharedStrategy.MixedSessionHappens | src/domain/trading/strategy.py:88-92 | with the default periods, fourteen candles of one symbol and one of another form a session whose last candle is stored with an RSI and recomputed without |
| RunnerRecovery.RecomputeDecisionContexts | src/application/services/decision_context.py:80-107 | the loop over fresh trackers gives the whole-series context at every candle |
| Replay.ReplayEngine.ConfirmNext | src/infrastructure/medallion/replay.py:937-966 | confirming a candle asks the provider with what it was asked before plus this input, enqueues its decision and moves an open position's ATR, as specified |
| Replay.ReplayEngine.DrainDecisions | src/infrastructure/medallion/replay.py:1008-1051 | draining takes every queued decision, first in first out, at this trade |
| Replay.ReplayEngine.EvaluateExits | src/infrastructure/medallion/replay.py:1128-1161 | the exit is judged at the level in force before this trade raises it |
| Replay.ReplayEngine.FinishPosition | src/infrastructure/medallion/replay.py:1163-1230 | closing writes the specified record and, in dynamic mode, moves day, realized totals and peak |
| Replay.ReplayEngine.RunAll | src/infrastructure/medallion/replay.py:885-935 | the engine object over the whole tape ends in the specified state or with the specified fault |
| ReplayCausality.ClosedSpec | src/infrastructure/medallion/replay.py:968-974 | the bisected position counts exactly the rows closed by a time |
| ReplayCausality.ContextIsCausal | src/infrastructure/medallion/replay.py:968-974 | the context row is the last one closed by the decision time |
| ReplayCausality.NoLookahead | src/infrastructure/medallion/replay.py:885-974 | two feeds with the same trades up to k and the same candles closed by then leave the same state after trade k |
| ReplayCausality.LedgersAgreeUntil | src/infrastructure/medallion/replay.py:885-935 | two complete runs on such feeds share every record closed by trade k |
| ReplayLedger.BuyRaisesIff | src/infrastructure/medallion/replay.py:1081-1122 | taking a buy raises exactly for a dynamic, approved entry without a usable ATR |
| ReplaySizing.EntriesSizedOnLedger | src/infrastructure/medallion/replay.py:1062-1122 | in dynamic mode the quantity, stop and target of every record of a run are those of the risk verdict on capital plus the net of all earlier records, their running peak, and the net of those closed on the entry's UTC day |
| ReplayLedger.RunSettles | src/infrastructure/medallion/replay.py:885-935 | decisions are filled, dropped, rejected or unfilled, once each; fills are closed trades plus strategy exits; positions never overlap; the internal error raises are unreachable |
| ReplayTiming.LevelMonotone | src/infrastructure/medallion/replay.py:1150-1161 | the protective level never falls and never goes below the initial stop |
| ReplayTiming.RunWellTimed | src/infrastructure/medallion/replay.py:901-1051 | every entry fills, on a decision to buy, at the first trade at or after its candle's close, and every strategy exit on a decision to sell; every stop or target exit triggers at the first touch of the level in force and fills on the next trade, or at the trigger if the data ends; the record's excursions, holding time and raises of its level are those of the trades in between |
| ReplayTiming.DecisionsConsumedOnTime | src/infrastructure/medallion/replay.py:901-935 | at every trade the queue holds exactly the decisions of the candles that closed since the trade before, in order, each at its first eligible trade; the trade consumes them all, filled, dropped or rejected |
| ReplayTiming.UnfilledAreLate | src/infrastructure/medallion/replay.py:918-935 | the decisions a complete run leaves unfilled are exactly those of the candles that close after the last trade |
| ReplayFates.DrainChains | src/infrastructure/medallion/replay.py:1008-1051 | each decision waiting at a trade meets its fate in order: a buy fills when flat, with an ATR and, in dynamic mode, with no risk rule against it, is rejected for the first rule against it and counted under its reason, and is dropped otherwise; a sell closes the position or is dropped |
| ReplayFates.TradesTakeDecisions | src/infrastructure/medallion/replay.py:901-1051 | at every trade of every run a pending exit fills first, then each decision that became eligible since the trade before meets that fate, and nothing else touches records and counters |
| ReplayCalls.RunAsksInSequence | src/infrastructure/medallion/replay.py:937-966 | the calls a run makes, as recorded by the engine, are one per candle, in candle order, with that candle's input, and leave out no candle that closes by the final sweep |
| ReplayRecords.CallsShowTheirContext | src/infrastructure/medallion/replay.py:937-974 | every recorded call shows its candle at its close, and as 1h and 4h context the last row of each series closed by then |
| ReplayRecords.AtrOfRows | src/infrastructure/medallion/replay.py:937-966 | the ATR it shows is the mean reach of the first period of rows, smoothed with every row after, where a row reaches from low to high or from the close before |
| ReplayRecords.RunExcursions | src/infrastructure/medallion/replay.py:1163-1230 | the favourable and adverse excursions of every record of a run are how far the trades from entry to exit went above and below the entry, never below nothing |
| ReplayProviders.StrategyDecisionProvider.DecideOn | src/infrastructure/medallion/strategy_provider.py:78-124 | the provider object answers as its specification, moves its index exactly on an input in sequence, and refuses any other; it decides to buy if and only if the strategy says buy on the candles shown, to sell if and only if it says sell, and abstains if and only if it says hold |
| ReplayProviders.AnswerMeans | src/infrastructure/medallion/strategy_provider.py:78-124 | on an input in sequence the reply is to buy, to sell or none exactly as the strategy says on the candles shown so far |
| ReplayRecords.RecordsFollowSignals | src/infrastructure/medallion/strategy_provider.py:78-124 | in a run under a strategy provider every record was entered on a candle on which the strategy said buy, and every strategy exit follows a candle on which it said sell |
| ReplayProviders.Serve | src/infrastructure/medallion/strategy_provider.py:78-103 | the provider object, called with inputs in sequence, gives at each call what the provider function gives on the inputs so far |
| ReplayProviders.CallsAreInSequence | src/infrastructure/medallion/strategy_provider.py:78-91 | no call the engine made, on any feed, is one the provider object would find out of sequence |
| ReplayProviders.NextCallInSequence | src/infrastructure/medallion/strategy_provider.py:78-91 | nor is the call the engine makes next, in any state it reaches |
| ReplayProviders.StrategyProviderNeverRefuses | src/infrastructure/medallion/strategy_provider.py:78-103 | no run ends in a refusal of a strategy provider whose strategy stamps its signals with the candle shown |
| ReplayProviders.ScriptedProviderFaithful | src/infrastructure/medallion/replay.py:316-350 | the scripted schedule never refuses and only issues genuine decisions |
| ReplayRecords.ScriptedSays | src/infrastructure/medallion/replay.py:316-350 | the scripted provider decides to buy on candle 17 and every twelfth after it that has an ATR, and to sell on candle 25 and every twelfth after it |
| ReplayAccounting.RecordIsTrade | src/infrastructure/medallion/replay.py:1172-1182 | a record's gross less slippage less fees is the net an account gets from the same two fills, with the same trade |
| ReplayAccounting.RunBooksAsAccount | src/infrastructure/medallion/replay.py:1163-1230 | an account can pay for the fills of a complete replay if and only if no entry costs more than the capital plus the net of the records before it; it then ends flat, richer by the replay's net, with the replay's records as its trades |
| ExitAgreement.SamePrice | src/domain/risk/stops.py:22-29 | on a caught-up stop, raise-then-judge and judge-then-raise decide alike on any price and stay matched |
| ExitAgreement.AgreeIffCaughtUp | src/application/services/paper_engine.py:197-225 | the two exit rules agree on every path of positive prices if and only if the stop starts caught up |
| ExitAgreement.FreshEntryAgreesIff | src/infrastructure/medallion/replay.py:1128-1161 | for a fresh fixed-quantity entry they agree if and only if the stop multiple is at most the trailing multiple, or the trailing distance exceeds the price |
| EngineExits.SessionExits | src/application/services/paper_engine.py:132-225 | a paper session that is not told to sell closes its position at the tick and for the reason the exit rule gives, under any arithmetic |
| EngineExits.ReplayExits | src/infrastructure/medallion/replay.py:901-935 | a replay whose provider never sells triggers the exit of a position at the trade and for the reason the exit rule gives |
| EngineExits.EnginesLeaveAlike | src/infrastructure/medallion/replay.py:1128-1161 | over one path of positive prices the two running engines leave a matched position alike when its stop starts caught up; a lagging stop parts them on a single price |
| Indicators.Ema | src/domain/market/indicators.py:34-45 | the loop gives the EMA at every index, warm-up included, and raises exactly on a period that is not positive |
| Indicators.Rsi | src/domain/market/indicators.py:55-75 | the loop gives the RSI at every index, warm-up included, and raises exactly on a period that is not positive |
| Indicators.Atr | src/domain/market/indicators.py:122-141 | the loop gives the ATR at every index, warm-up included, and raises exactly on a period that is not positive |
| Indicators.AtrTracker.Update | src/domain/market/indicators.py:166-184 | the tracker's update is the specified step and returns its value, nothing for the first candle |
| Indicators.AtrStreamsTheSeries | src/domain/market/indicators.py:144-184 | the tracker reproduces the series at every index, bit for bit under any arithmetic |
| Indicators.AtrCausal | src/domain/market/indicators.py:122-141 | the ATR at an index depends on nothing after it |
| IndicatorMeaning.EmaMeans | src/domain/market/indicators.py:34-45 | the EMA starts as the mean of the first values and then moves by 2 / (period + 1) of the way to each new one |
| IndicatorMeaning.AveragesMean | src/domain/market/indicators.py:55-75 | average rise and fall start as the means of the first steps and are smoothed by Wilder's rule with every step after |
| IndicatorMeaning.RsiMeans | src/domain/market/indicators.py:48-75 | the RSI is the share of the average rise in the sum of both, in percent, and fifty if both are nil |
| IndicatorMeaning.AtrMeans | src/domain/market/indicators.py:122-141 | the ATR is defined exactly from index period on, starts as the mean true range and is smoothed with every range after |
| Strategy.EmaStreamsTheSeries | src/domain/trading/strategy.py:27-42 | the EMA tracker holds the series' value at every index, and the one before |
| Strategy.RsiStreamsTheSeries | src/domain/trading/strategy.py:45-79 | the RSI tracker holds the series' value at every index |
| Strategy.EmaRsiBaseline.OnCandle | src/domain/trading/strategy.py:120-137 | one candle moves the three trackers and answers by the crossing rule |
| Strategy.StrategyStreamsTheRule | src/domain/trading/strategy.py:96-137 | the strategy answers at every index what the crossing rule says of the whole series |
| Strategy.SignalMeans | src/domain/trading/strategy.py:120-137 | on the whole-series EMA and RSI: buy if and only if all five values are defined and the fast average crosses from at most to above the slow one; sell if and only if they are, it does not, and it crosses down or the RSI is above the exit level; hold otherwise, for warm-up exactly while a value is missing |
| Adx.ComputeAdx | src/domain/market/indicators.py:241-302 | the one-pass computation gives the ADX at every index, and raises exactly on a period that is not positive |
| IndicatorMeaning.DirectionMeans | src/domain/market/indicators.py:255-275 | a candle moves up by its higher high if that is more than its lower low, down likewise, and at most one of the two |
| IndicatorMeaning.DxMeans | src/domain/market/indicators.py:241-302 | DX is the share of the difference of the smoothed moves in their sum, in percent: the range cancels |
| IndicatorMeaning.AdxMeans | src/domain/market/indicators.py:241-302 | the ADX starts as the mean of the first DX values and is smoothed with every one after |
| IndicatorBounds.EmaWithinRange | src/domain/market/indicators.py:34-45 | the EMA is defined from index period - 1 on and stays in the range of the values seen |
| IndicatorBounds.RsiIsPercentage | src/domain/market/indicators.py:48-75 | the RSI is defined from index period on and stays in [0, 100] |
| IndicatorBounds.MoveWithinRange | src/domain/market/indicators.py:255-275 | directional movement never exceeds the true range of a well-formed candle |
| IndicatorBounds.AdxIsPercentage | src/domain/market/indicators.py:241-302 | +DI, -DI, DX and ADX stay in [0, 100], and the ADX is defined exactly from index 2 period - 1 on |
| Backtest.BacktestEngine.Run | src/application/services/backtest_engine.py:43-87 | the bar loop on an account object computes the specified run, or raises exactly when it does |
| Backtest.BacktestCausal | src/application/services/backtest_engine.py:43-97 | the first n + 1 bars depend only on their candles and on the first n signals, under any arithmetic |
| Backtest.EquityGrows | src/application/services/backtest_engine.py:67-71 | one equity value per bar, never rewritten |
| BacktestProofs.BuySpendsAll | src/domain/trading/fill.py:33-50 | a buy costs exactly the cash it was sized for, fee included |
| BacktestProofs.ExecuteRaisesIff | src/application/services/backtest_engine.py:89-97 | carrying out a signal raises exactly when a buy with cash meets a zero execution price or a fee of minus 100 percent |
| BacktestProofs.RunInStep | src/application/services/backtest_engine.py:43-87 | on positive opens no run raises; it is all in or all out and conserves money; each trade is bought and sold at the opens after its two signals; exposed bars are the holding times |
| BacktestProofs.FlatBacktest | src/application/services/backtest_engine.py:73-87 | a run that ends flat holds its initial cash plus the net of its trades |
| BacktestMeaning.NextBarActs | src/application/services/backtest_engine.py:43-97 | at each open the account does what the signal of the bar before says: all cash into shares and their fee, all shares into cash less the fee, or nothing; at the close its worth is appended and the new signal counted |
| BacktestMeaning.InvestedIffBuyStands | src/application/services/backtest_engine.py:43-97 | with initial cash and a fee below 100 percent a backtest is invested if and only if a buy signal of an earlier bar has no sell signal after it |
| Features.BuildFeatures | src/domain/experiments/features.py:27-47 | the loop gives one row and label for every bar whose indicators are all defined: return, centred RSI, momentum and volatility of that bar, labelled 1 if and only if the next close is higher |
| Features.RealizedVolatility | src/domain/market/indicators.py:207-218 | the loop gives the windowed volatility at every index, and raises exactly on a window that is not positive |
| IndicatorMeaning.GrowthMeans | src/domain/market/indicators.py:199-227 | return and momentum are the relative growth over one and over the window's bars, undefined where they would divide by zero |
| IndicatorMeaning.VolatilityMeans | src/domain/market/indicators.py:207-218 | the volatility of at least two returns is the root of their summed squared deviations over one less than their number |
| IndicatorMeaning.VolatilityWindow | src/domain/market/indicators.py:207-218 | at each bar those are the returns of the last window bars, or of all there are, that do not divide by zero |
| Features.RowCausal | src/domain/experiments/features.py:27-47 | a feature row reads nothing after its own bar |
| Features.RowsWhenNonZero | src/domain/experiments/features.py:38-46 | with no zero close the rows are exactly the bars from the fourteenth on |
| Features.UsableIff | src/domain/experiments/features.py:38-46 | a bar has a row if and only if the RSI has warmed up, the closes one and ten bars earlier are not zero, and at least two of the returns of the volatility window are defined |
| MlPipeline.Windows | src/domain/experiments/walk_forward.py:29-38 | validation windows tile forward by the step, none reaches the holdout, and the list stops only where the next would |
| MlPipeline.PrecomputedStrategy.OnCandle | src/domain/trading/strategy.py:140-152 | the strategy repeats its list, then holds |
| MlPipeline.RunMlBaseline | src/application/services/ml_pipeline.py:92-142 | the pipeline as written computes the specified backtest of the specified actions, and refuses a bad split |
| MlMeaning.ScoredBarActs | src/application/services/ml_pipeline.py:100-125 | a bar with a row acts on the score of the last window over that row, by a model trained on the rows before the window only: buy from the upper threshold on, sell up to the lower, hold in between and where no window is over it |
| MlMeaning.OtherBarsHold | src/application/services/ml_pipeline.py:100-125 | a bar without a row holds |
| MlCausality.ActionsCausal | src/application/services/ml_pipeline.py:100-125 | with as many usable rows, what happens from a bar on changes no earlier action, for any learner, windows and arithmetic |
| MlCausality.ActionsAgreeIff | src/application/services/ml_pipeline.py:100-125 | for series that agree before a bar, the actions before it agree for every learner, split and threshold if and only if both have as many usable rows or fewer than two lie before the bar |
| MlCausality.NonZeroNeverReachesBack | src/domain/experiments/features.py:38-46 | with no zero close that condition holds |
| MlCausality.MlNoLookahead | src/application/services/ml_pipeline.py:92-142 | under that condition neither actions nor equity of the first bars depend on later candles, although labels read the next close |
| MlCausality.LateZeroChangesEarlierAction | src/domain/experiments/features.py:38-46 | a concrete pair of series: a zero close at bar 16 turns the action of bar 15 from a buy into a hold |
| Aggregation.ReadTrades | src/infrastructure/medallion/candles.py:149-220 | reading ends with every row, or at the first row that is illegible, of another symbol or source, on no known side, outside the day or out of order, or with no row, or with a wrong count |
| Aggregation.ReadRowsAreSorted | src/infrastructure/medallion/candles.py:208-216 | rows that were read are sorted by time, as the aggregation needs them |
| Aggregation.Aggregate | src/infrastructure/medallion/candles.py:223-278 | the one-pass dictionary of buckets yields the specified candles in order, or the out-of-day error exactly when one leaves the day |
| Aggregation.CandlesExplained | src/infrastructure/medallion/candles.py:223-278 | each candle is first, last, first highest, first lowest, total and count of its trades; the parts concatenate to the tape |
| Aggregation.PartsAreBuckets | src/infrastructure/medallion/candles.py:223-278 | on a sorted tape the trades behind a candle are all the trades of its bucket |
| Aggregation.VolumeConserved | src/infrastructure/medallion/candles.py:223-278 | every timeframe conserves total volume and trade count |
| Aggregation.TimeframesRollUp | src/infrastructure/medallion/candles.py:69-78 | aggregating a finer timeframe's candles gives exactly the coarser ones, tie-break included |
| Aggregation.CandlesStayInDay | src/infrastructure/medallion/candles.py:223-278 | for trades inside a day no candle of any timeframe leaves it: the error is unreachable |
| Refresh.PlanRefresh | src/infrastructure/medallion/refresh.py:235-273 | the planning loop computes the plan of the specification (`RefreshProofs.PlanSpec`, `RefreshMeaning.PlanLists`), or refuses an unapproved source |
| Refresh.StatusFile.RunRefresh | src/infrastructure/medallion/refresh.py:349-456 | a run ends, invokes its operations and writes its status files exactly as specified |
| Refresh.ClassesAgreeIff | src/infrastructure/medallion/refresh.py:181-188 | the planner's day class is the split guard's exactly from the first development day on |
| RefreshProofs.PlanSpec | src/infrastructure/medallion/refresh.py:235-273 | the plan holds exactly the unlisted, uncompleted steps of the days of the range outside day numbers 20256 to 20688 |
| RefreshProofs.RunMonotone | src/infrastructure/medallion/refresh.py:349-456 | the completed set only grows in every status file of a run; it tries nothing completed before it and nothing twice |
| RefreshProofs.BlockedRunsNothing | src/infrastructure/medallion/refresh.py:368-390 | a run ends access-blocked if and only if the source is approved and some day of its range is numbered 20256 to 20688, and then tries nothing |
| RefreshProofs.TriesStayOutOfSplits | src/infrastructure/medallion/refresh.py:235-273 | no step outside the range or of a day numbered 20256 to 20688 is ever tried |
| RefreshMeaning.PlanLists | src/infrastructure/medallion/refresh.py:235-273 | the plan reports every frozen day of the range as blocked and every day neither frozen nor in the development split as kept from gold, each once and in order |
| RefreshMeaning.RunStops | src/infrastructure/medallion/refresh.py:349-406 | a run that does not get to its steps tries nothing, ends for the first reason that holds, and writes that one status unless it is a dry run or unapproved |
| RefreshMeaning.RunFails | src/infrastructure/medallion/refresh.py:407-433 | one whose step fails has tried, in the planned order, everything up to it and nothing after; every success and then the failure are written, with the completed steps and counts of that moment |
| RefreshMeaning.RunSucceeds | src/infrastructure/medallion/refresh.py:407-456 | one that does not fail has tried every planned step in order, written each, and ends OK, or as a no-op if nothing was planned |
| RefreshProofs.LayersInOrder | src/infrastructure/medallion/refresh.py:349-456 | a day's layer is only tried once its earlier layers are listed or completed |
| RefreshProofs.DoneLeavesNothing | src/infrastructure/medallion/refresh.py:349-456 | after a run that ends well the same range has an empty plan, by the planner's own test of what is listed |
| RefreshProofs.RerunIsNoop | src/infrastructure/medallion/refresh.py:349-456 | running it again tries nothing and ends as a no-op unless the capacity check stops it |
| RefreshProofs.CompletedNeverRunsAgain | src/infrastructure/medallion/refresh.py:227-232 | under any pattern of failures, kills and restarts a completed step stays completed and is never tried again |
| RefreshWorld.PartialIffTorn | src/infrastructure/medallion/refresh.py:222-224 | over any history of failures and kills, a day with a listed candle file lacks one on disk exactly if some attempt stopped inside that day's candle step between listing its first and placing its last |
| RefreshWorld.OkMeansCompleteIff | src/infrastructure/medallion/refresh.py:235-273 | after any such history, a run that ends OK leaves the bronze and trades files of every day of its range on disk, and all seven candle files of a day if and only if no earlier attempt tore it |
| RefreshWorld.LostFileBlocks | src/infrastructure/medallion/silver.py:257-263 | a bronze or trades file that was listed but never placed stays missing, and no later run over its day ends OK |
| RefreshWorld.TornDayEndsOk | src/infrastructure/medallion/candles.py:309-457 | from an empty tree, a run killed after the first candle file of a day, run again, ends OK with exactly that candle file, the other six missing |

## Left out

- Floating point beyond the arithmetic parameter: infinities, NaN and signed zero are not modelled; division by zero is
  total in the arithmetic and written out as an error only where the source can reach it.
- Python's compensated `sum` of floats is the `sum` of the arithmetic parameter; `** 2` and `** 0.5` are parameters.
- Decimal and JSON text, hashing, canonical ledger bytes, manifest parsing, gzip and CSV reading, atomic renames: inputs
  are validated sequences, identity is equality.
- Reconciliation.ReconcileWithBook: an illegible checkpoint is the same as an absent one, because its text form is not
  modelled.
- PaperTrading.RunTicks: the kill switch stands still during one call, because nothing in the loop changes it; a switch
  that changes between ticks is covered by the session function, which reads it per tick.
- PaperSafety.SessionStaysSolvent: assumes exact arithmetic, costs between nothing and the whole price, and at most one
  open position; `PaperLimits` shows what fails with two.
- PaperMeaning.SessionMeans: assumes the same and prices not below nothing; the peak is `PeakEquity.PeakIsHighestMark`.
- RiskMeaning.ApprovedIff: in exact arithmetic, as are the other results that speak of money or of indicator equations.
- BacktestMeaning.NextBarActs: assumes positive opens, a fee above minus 100 percent and a slippage below 100 percent.
- TradeTrace.TraceEqualsTrades: assumes the setup of `PaperSafety.SessionStaysSolvent`; the trace is read as one position at a time.
- TiedCursor.HonestPassesIffNoTiedFill: assumes the same, a positive fee and prices above nothing.
- DailyLoss.SessionCounted: the day key is the UTC day; other time zones are not modelled.
- DailyLoss.SessionAccounted: assumes the setup of `PaperSafety.SessionStaysSolvent`; the day's figure itself needs none
  of it (`DailyLoss.SessionCounted`).
- SharedStrategy.RecomputedIffUnmixed: in exact arithmetic; `RunnerRecovery.MixedSymbolsDiffer` is what holds under any.
- EngineExits.EnginesLeaveAlike: one constant ATR trails both stops and no decision sells; a sell decision closes either
  position whatever its levels.
- Runner.PaperRunner.HandleCandle: the two asynchronous writes after processing are not modelled.
- RunnerRecovery.RecoveryIffSwitchStood: speaks of the in-memory runner; the asynchronous store, the WebSocket handoff and
  the loading of persisted events are a map from stream and time to event.
- Runner.PaperRunner.ProcessCandle: ATR, window and regime trackers per symbol are values in maps rather than shared
  objects, so aliasing between them is not modelled; the regime classifier is any function of the last 100 candles.
- Replay.ReplayEngine.RunAll: the open position and the pending exit are values that the engine replaces rather than
  objects it shares; an ATR period below one, which raises in the source, is excluded by the type.
- ReplayTiming.RunWellTimed: a provider is any function of the inputs shown so far that never refuses and stamps its
  decisions with the candle it was shown.
- Aggregation.ReadTrades: whether a column has the form of a number or digest is a flag of the row; the header, the
  column count and the gzip checks are not modelled.
- RefreshWorld.OkMeansCompleteIff: starts from a tree the refresh could have left (what is on disk is listed, what is
  listed was made from a file on disk, what is completed is on disk); file contents and their hashes are not modelled,
  and nothing but the refresh removes or adds files.
- Aggregation.CandlesExplained: prices carry their text and their value; that text and value agree is not modelled.
- MlPipeline.RunMlBaseline: training and scoring is one opaque deterministic function; gradient descent, classification
  metrics and the experiment identifier are not modelled.
- MlCausality.MlNoLookahead: the equity half speaks of runs that do not raise; on positive opens none does
  (`BacktestProofs.RunInStep`).
- RunnerRecovery.RecomputeDecisionContexts: takes the runner's strategy configuration instead of the fixed defaults, so
  that it covers them.
- Backtest.BacktestEngine.Run: performance metrics (Sharpe, Sortino, drawdown series) are not modelled.
- Refresh.StatusFile.RunRefresh: timestamps, log lines and the guard's disk arithmetic are left out; whether the capacity
  check passes and which operations succeed are inputs.
- Bollinger, MACD, VWAP, SMA and relative volume: single loops of the same shape as the modelled indicators.
- Databases, migrations, network clients, metrics, command lines, LLM and embedding adapters, certification reports,
  promotion states: input and output around the core.
