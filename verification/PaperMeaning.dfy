/** What a tick of a paper session does, in prices, costs and limits alone: which order is carried out, at what price,
    for what quantity, and what the log, the account and the counters say afterwards. */
module PaperMeaning {
  import opened Numerics
  import opened Portfolio
  import opened Risk
  import opened PaperTrading
  import opened PaperSafety
  import M = RiskMeaning
  import D = DailyLoss

  /** The two costs, as shares of a price and of a notional. */
  function Slip(su: Setup): real {
    su.slippageBps / 10_000.0
  }

  function Taker(su: Setup): real {
    su.takerBps / 10_000.0
  }

  /** What the day has realized once a tick has rolled it. */
  function Today(st: EngineState, ts: int): real {
    if st.day.Some? && st.day.value != UtcDay(ts) then 0.0 else st.realizedToday
  }

  // ---- orders

  /** The whole position is sold at the price got, the fee is taken from the proceeds, and one trade with the costs of
      both ends is booked. */
  predicate SoldFor(before: Book, after: Book, got: real, fee: real, slipped: real, e: LogEvent) {
    var q, gross := before.position, (got - before.avgEntry.GetOr(0.0)) * before.position;
    var net := gross - (before.entryFees + fee);
    && e.filled && e.action.Sell? && e.riskReason == ""
    && e.execPrice == Some(got) && e.quantity == Some(q) && e.fee == fee && e.slippageCost == slipped
    && after == before.(
         cash := before.cash + (q * got - fee), position := 0.0, avgEntry := None, entryTs := None,
         entryFees := 0.0, entrySlippage := 0.0, realizedPnl := before.realizedPnl + net,
         totalFees := before.totalFees + fee, totalSlippage := before.totalSlippage + slipped,
         trades := before.trades + [
           Trade(before.entryTs.GetOr(0), e.ts, before.avgEntry.GetOr(0.0), got, q, gross, before.entryFees + fee,
                 before.entrySlippage + slipped, net)])
  }

  /** A sale at the price less the slippage. */
  predicate Sale(su: Setup, before: Book, after: Book, price: real, e: LogEvent) {
    var q, got := before.position, price * (1.0 - Slip(su));
    SoldFor(before, after, got, q * got * Taker(su), q * (price - got), e)
  }

  /** The quantity a buy takes: what was sized if the cash affords it with its fee, and otherwise what spends the cash
      with a tenth of a percent kept back. */
  predicate Affords(su: Setup, cash: real, sized: real, paid: real, quantity: real) {
    if sized * paid + sized * paid * Taker(su) <= cash + CASH_SLACK then quantity == sized
    else quantity * paid * 1.001 == cash
  }

  /** A position is bought at the price paid, with the fee on top. */
  predicate BoughtFor(before: Book, after: Book, q: real, paid: real, fee: real, slipped: real, e: LogEvent) {
    && e.filled && e.action.Buy? && e.riskReason == "" && e.exitReason == ""
    && e.execPrice == Some(paid) && e.quantity == Some(q) && q > 0.0 && e.fee == fee && e.slippageCost == slipped
    && after == before.(
         cash := before.cash - (q * paid + fee), position := q, avgEntry := Some(paid), entryTs := Some(e.ts),
         entryFees := before.entryFees + fee, entrySlippage := before.entrySlippage + slipped,
         totalFees := before.totalFees + fee, totalSlippage := before.totalSlippage + slipped)
  }

  /** A purchase at the price plus the slippage, of what was sized or what the cash affords. */
  predicate Purchase(su: Setup, before: Book, after: Book, sized: real, price: real, e: LogEvent) {
    var q, paid := e.quantity.GetOr(0.0), price * (1.0 + Slip(su));
    && BoughtFor(before, after, q, paid, q * paid * Taker(su), q * (paid - price), e)
    && Affords(su, before.cash, sized, paid, q)
  }

  /** Nothing is bought or sold. */
  predicate NoOrder(before: Book, after: Book, action: Action, reason: string, e: LogEvent) {
    && after == before && !e.filled && e.action == action && e.riskReason == reason && e.exitReason == ""
    && e.execPrice.None? && e.quantity.None? && e.fee == 0.0 && e.slippageCost == 0.0
  }

  lemma {:induction false} SellFillIs(su: Setup, price: real, q: real, ts: int)
    requires SoundSetup(su) && price >= 0.0
    ensures
      var f, got := SellFill(su, price, q, ts), price * (1.0 - Slip(su));
      && f.ts == ts && f.action.Sell? && f.quantity == q && f.execPrice == got && f.notional == q * f.execPrice
      && f.fee == q * got * Taker(su) && f.slippageCost == q * (price - got)
  {
    ExecPrices(su, price);
    Rates(su);
    SlipDown(price, su.SlippageRate());
  }

  lemma {:induction false} SlipDown(price: real, rate: real)
    requires price >= 0.0 && 0.0 <= rate
    ensures Abs(price * (1.0 - rate) - price) == price - price * (1.0 - rate)
  {
    assert price * rate >= 0.0;
    assert price * (1.0 - rate) == price - price * rate;
  }

  lemma {:induction false} CloseBooks(su: Setup, st: EngineState, t: Tick, reason: string, worth: real)
    requires su.ar.Exact? && Solvent(su, st) && st.position.Some?
    requires SellFill(su, t.price, st.book.position, t.ts).quantity == st.book.position
    requires SellFill(su, t.price, st.book.position, t.ts).ts == t.ts
    requires
      var f := SellFill(su, t.price, st.book.position, t.ts);
      f.notional == st.book.position * f.execPrice
    ensures
      var (next, event) := Close(su, st, t.price, t.ts, reason);
      var e, f := Logged(t, event, worth), SellFill(su, t.price, st.book.position, t.ts);
      && SoldFor(st.book, next.book, f.execPrice, f.fee, f.slippageCost, e) && e.exitReason == reason
      && next == st.(book := next.book, position := None, peakEquity := next.peakEquity,
                     realizedToday := st.realizedToday + (next.book.realizedPnl - st.book.realizedPnl))
  {
    hide SellFill, ApplySell, SoldFor;
    var f := SellFill(su, t.price, st.book.position, t.ts);
    var (next, event) := Close(su, st, t.price, t.ts, reason);
    assert event.fill == Some(f) && next.book == ApplySell(Exact, st.book, f);
    SellsWhole(st.book, f, Logged(t, event, worth));
  }

  lemma {:induction false} SellsWhole(b: Book, f: Fill, e: LogEvent)
    requires b.position > 0.0 && f.quantity == b.position && f.notional == b.position * f.execPrice && e.ts == f.ts
    requires e.filled && e.action.Sell? && e.riskReason == "" && e.execPrice == Some(f.execPrice)
    requires e.quantity == Some(f.quantity) && e.fee == f.fee && e.slippageCost == f.slippageCost
    ensures SoldFor(b, ApplySell(Exact, b, f), f.execPrice, f.fee, f.slippageCost, e)
  {
    hide ApplySell;
    var whole := f.(quantity := b.position, notional := b.position * f.execPrice);
    assert whole == f;
    SellAll(b, whole);
  }

  lemma {:induction false} SaleOf(
    su: Setup, before: Book, after: Book, price: real, e: LogEvent, got: real, fee: real, slipped: real)
    requires SoldFor(before, after, got, fee, slipped, e) && got == price * (1.0 - Slip(su))
    requires fee == before.position * (price * (1.0 - Slip(su))) * Taker(su)
    requires slipped == before.position * (price - price * (1.0 - Slip(su)))
    ensures Sale(su, before, after, price, e)
  {
  }

  lemma {:induction false} CloseSells(su: Setup, st: EngineState, t: Tick, reason: string, worth: real)
    requires SoundSetup(su) && Solvent(su, st) && st.position.Some? && t.price >= 0.0
    ensures
      var (next, event) := Close(su, st, t.price, t.ts, reason);
      var e := Logged(t, event, worth);
      && Sale(su, st.book, next.book, t.price, e) && e.exitReason == reason
      && next == st.(book := next.book, position := None, peakEquity := next.peakEquity,
                     realizedToday := st.realizedToday + (next.book.realizedPnl - st.book.realizedPnl))
  {
    hide SellFill, Close, SoldFor, Sale, Solvent, Slip, Taker;
    SellFillIs(su, t.price, st.book.position, t.ts);
    CloseBooks(su, st, t, reason, worth);
    var f := SellFill(su, t.price, st.book.position, t.ts);
    var (next, event) := Close(su, st, t.price, t.ts, reason);
    SaleOf(su, st.book, next.book, t.price, Logged(t, event, worth), f.execPrice, f.fee, f.slippageCost);
  }

  lemma {:induction false} BuyFillIs(su: Setup, cash: real, sized: real, price: real, ts: int)
    requires SoundSetup(su) && price > 0.0 && sized > 0.0 && cash > 0.0
    ensures
      var f, paid := BuyFill(su, cash, sized, price, ts), price * (1.0 + Slip(su));
      && f.ts == ts && f.action.Buy? && f.quantity > 0.0 && f.execPrice == paid
      && f.notional == f.quantity * f.execPrice && f.fee == f.quantity * paid * Taker(su)
      && f.slippageCost == f.quantity * (paid - price) && Affords(su, cash, sized, paid, f.quantity)
  {
    ExecPrices(su, price);
    Rates(su);
    BoughtFill(su, cash, sized, price, ts);
    CutToCash(cash, su.BuyPrice(price));
  }

  lemma {:induction false} MarkingChangesPeak(su: Setup, st: EngineState, price: real)
    ensures MarkPeak(su, st, price) == st.(peakEquity := MarkPeak(su, st, price).peakEquity)
  {
  }

  lemma {:induction false} OpenBooks(
    su: Setup, st: EngineState, t: Tick, sized: real, stop: real, target: Option<real>, worth: real)
    requires su.ar.Exact? && Solvent(su, st) && st.position.None?
    requires
      var f := BuyFill(su, st.book.cash, sized, t.price, t.ts);
      f.quantity > 0.0 && f.ts == t.ts && f.notional == f.quantity * f.execPrice
    requires Open(su, st, sized, t.price, stop, target, t.ts).1.Done?
    ensures
      var (next, outcome) := Open(su, st, sized, t.price, stop, target, t.ts);
      var e, f := Logged(t, outcome.event, worth), BuyFill(su, st.book.cash, sized, t.price, t.ts);
      && BoughtFor(st.book, next.book, f.quantity, f.execPrice, f.fee, f.slippageCost, e)
      && e.quantity.Some? && e.execPrice.Some?
      && next == st.(book := next.book, peakEquity := next.peakEquity, position := Some(
           PaperPosition(e.quantity.value, e.execPrice.value, stop, target, e.execPrice.value, t.ts)))
  {
    hide BuyFill;
    var f := BuyFill(su, st.book.cash, sized, t.price, t.ts);
    var (next, outcome) := Open(su, st, sized, t.price, stop, target, t.ts);
    assert st.book.position == 0.0;
    assert outcome.event.fill == Some(f);
    assert next.book == ApplyBuy(Exact, st.book, f).value;
    assert next.book.position == f.quantity;
    assert next.book.cash == st.book.cash - (f.quantity * f.execPrice + f.fee);
    MarkingChangesPeak(su, st.(book := next.book, position := next.position), f.execPrice);
  }

  lemma {:induction false} PurchaseOf(
    su: Setup, before: Book, after: Book, sized: real, price: real, e: LogEvent, q: real, paid: real, fee: real,
    slipped: real)
    requires BoughtFor(before, after, q, paid, fee, slipped, e) && Affords(su, before.cash, sized, paid, q)
    requires paid == price * (1.0 + Slip(su)) && fee == q * (price * (1.0 + Slip(su))) * Taker(su)
    requires slipped == q * (price * (1.0 + Slip(su)) - price)
    ensures Purchase(su, before, after, sized, price, e)
  {
  }

  lemma {:induction false} OpenBuys(
    su: Setup, st: EngineState, t: Tick, sized: real, stop: real, target: Option<real>, worth: real)
    requires SoundSetup(su) && Solvent(su, st) && st.position.None?
    requires sized > 0.0 && t.price > 0.0 && st.book.cash > 0.0
    requires Open(su, st, sized, t.price, stop, target, t.ts).1.Done?
    ensures
      var (next, outcome) := Open(su, st, sized, t.price, stop, target, t.ts);
      var e := Logged(t, outcome.event, worth);
      && Purchase(su, st.book, next.book, sized, t.price, e) && e.quantity.Some? && e.execPrice.Some?
      && next == st.(book := next.book, peakEquity := next.peakEquity, position := Some(
           PaperPosition(e.quantity.value, e.execPrice.value, stop, target, e.execPrice.value, t.ts)))
  {
    hide BuyFill, Open, Solvent, Slip, Taker, Affords, BoughtFor, Purchase;
    BuyFillIs(su, st.book.cash, sized, t.price, t.ts);
    OpenBooks(su, st, t, sized, stop, target, worth);
    var f := BuyFill(su, st.book.cash, sized, t.price, t.ts);
    var (next, outcome) := Open(su, st, sized, t.price, stop, target, t.ts);
    PurchaseOf(su, st.book, next.book, sized, t.price, Logged(t, outcome.event, worth), f.quantity, f.execPrice, f.fee,
               f.slippageCost);
  }

  lemma {:induction false} CutToCash(cash: real, paid: real)
    requires paid != 0.0
    ensures cash / 1.001 / paid * paid * 1.001 == cash
  {
  }

  // ---- the decision

  /** What the risk rules judge: the proposal, and the account before the decision, marked at its price. */
  function Judged(st: EngineState, t: Tick): (TradeProposal, RiskState) {
    (TradeProposal(t.decision.action, t.decision.intensity, t.price, t.atr),
     RiskState(if st.position.Some? then 1 else 0, st.realizedToday, st.peakEquity,
               st.book.cash + st.book.position * t.price, t.killActive))
  }

  /** The levels of a new position: an ATR puts the stop its multiple below the price and the target its multiple of
      that above; without one, or for a stop of exactly zero, the stop is a billionth below the price. */
  predicate Leveled(cfg: RiskConfig, p: TradeProposal, stop: real, target: Option<real>) {
    var flat := p.price * (1.0 - 0.000000001);
    if M.HasAtr(p) then
      var distance := cfg.stopAtrMultiplier * p.atr.value;
      && stop == (if p.price == distance then flat else p.price - distance)
      && target.Some? && target.value == p.price + cfg.takeProfitRMultiple * distance
    else stop == flat && target.None?
  }

  /** The quantity the rules allow: the budget over the stop distance or the cap, whichever is less. */
  predicate Sized(cfg: RiskConfig, p: TradeProposal, s: RiskState, cap: real, size: PositionSize) {
    M.Capped(cfg, cap) &&
    if M.HasAtr(p) then
      M.SizedFor(cfg, M.Budget(cfg, p.intensity, s), cfg.stopAtrMultiplier * p.atr.value, p.price, cap, size)
    else size.notional == cap == size.quantity * p.price
  }

  /** A position with the sized quantity and its levels is opened at the price paid. */
  ghost predicate Entered(su: Setup, st: EngineState, t: Tick, next: EngineState, e: LogEvent) {
    var (p, s) := Judged(st, t);
    exists size: PositionSize, cap: real ::
      && Sized(su.risk, p, s, cap, size) && Purchase(su, st.book, next.book, size.quantity, t.price, e)
      && next.position.Some? && Leveled(su.risk, p, next.position.value.stopLoss, next.position.value.takeProfit)
      && next.position.value == PaperPosition(
           e.quantity.value, e.execPrice.value, next.position.value.stopLoss, next.position.value.takeProfit,
           e.execPrice.value, t.ts)
      && next.realizedToday == st.realizedToday
  }

  /** The counters move by these amounts, and no other. */
  predicate Counts(st: EngineState, next: EngineState, rejected: bool, triggered: bool, active: bool) {
    && next.ordersRejected == st.ordersRejected + (if rejected then 1 else 0)
    && next.dailyLossTriggered == st.dailyLossTriggered + (if triggered then 1 else 0)
    && next.dailyLossActiveCycles == st.dailyLossActiveCycles + (if active then 1 else 0)
  }

  /** A decision is rejected for the first rule against it, or carried out. */
  ghost predicate Decided(su: Setup, st: EngineState, t: Tick, next: EngineState, e: LogEvent) {
    var (p, s) := Judged(st, t);
    match M.Objection(su.risk, p, s)
    case Some(reason) =>
      && NoOrder(st.book, next.book, p.action, reason, e)
      && next.position == st.position && next.realizedToday == st.realizedToday
      && Counts(st, next, !p.action.Hold?, p.action.Buy? && reason == "max_daily_loss", false)
    case None =>
      match p.action
      case Hold =>
        && NoOrder(st.book, next.book, Hold, "", e)
        && next.position == st.position && next.realizedToday == st.realizedToday
        && Counts(st, next, false, false, M.Broke(su.risk, s))
      case Sell =>
        && Sale(su, st.book, next.book, t.price, e) && e.exitReason == "llm_sell" && next.position.None?
        && next.realizedToday == st.realizedToday + (next.book.realizedPnl - st.book.realizedPnl)
        && Counts(st, next, false, false, false)
      case Buy => Entered(su, st, t, next, e) && Counts(st, next, false, false, false)
  }

  lemma {:induction false} BrokeIff(su: Setup, st: EngineState, s: RiskState)
    requires su.ar.Exact? && s.realizedToday == st.realizedToday
    ensures DailyLossExceeded(su.ar, st.realizedToday, su.risk.capital, su.risk) <==> M.Broke(su.risk, s)
  {
  }

  lemma {:induction false} ViewIsJudged(su: Setup, st: EngineState, t: Tick)
    requires su.ar.Exact?
    ensures RiskView(su, st, t.killActive, t.price) == Judged(st, t).1
  {
  }

  lemma {:induction false} DecisionRejected(su: Setup, st: EngineState, t: Tick, worth: real)
    requires SoundSetup(su) && M.Objection(su.risk, Judged(st, t).0, Judged(st, t).1).Some?
    ensures
      var (next, outcome) := Decide(su, st, t.killActive, t.decision, t.price, t.atr, t.ts);
      outcome.Done? && Decided(su, st, t, next, Logged(t, outcome.event, worth))
  {
    hide Evaluate, M.Objection, Entered, Sale;
    ViewIsJudged(su, st, t);
    M.ApprovedIff(su.risk, Judged(st, t).0, Judged(st, t).1);
  }

  lemma {:induction false} DecisionHolds(su: Setup, st: EngineState, t: Tick, worth: real)
    requires SoundSetup(su) && M.Objection(su.risk, Judged(st, t).0, Judged(st, t).1).None?
    requires t.decision.action.Hold?
    ensures
      var (next, outcome) := Decide(su, st, t.killActive, t.decision, t.price, t.atr, t.ts);
      outcome.Done? && Decided(su, st, t, next, Logged(t, outcome.event, worth))
  {
    hide Evaluate, M.Objection, Entered, Sale;
    ViewIsJudged(su, st, t);
    M.ApprovedIff(su.risk, Judged(st, t).0, Judged(st, t).1);
    BrokeIff(su, st, Judged(st, t).1);
  }

  lemma {:induction false} SellNeedsPosition(cfg: RiskConfig, p: TradeProposal, s: RiskState)
    requires p.action.Sell? && M.Objection(cfg, p, s).None?
    ensures s.openPositions != 0
  {
  }

  lemma {:induction false} DecisionSells(su: Setup, st: EngineState, t: Tick, worth: real)
    requires SoundSetup(su) && Solvent(su, st) && t.price >= 0.0 && t.decision.action.Sell?
    requires M.Objection(su.risk, Judged(st, t).0, Judged(st, t).1).None?
    ensures
      var (next, outcome) := Decide(su, st, t.killActive, t.decision, t.price, t.atr, t.ts);
      outcome.Done? && Decided(su, st, t, next, Logged(t, outcome.event, worth))
  {
    hide Evaluate, M.Objection, Entered, Sale, Solvent, Close;
    ViewIsJudged(su, st, t);
    M.ApprovedIff(su.risk, Judged(st, t).0, Judged(st, t).1);
    SellNeedsPosition(su.risk, Judged(st, t).0, Judged(st, t).1);
    MarkingKeepsSolvent(su, st, t.price);
    CloseSells(su, MarkPeak(su, st, t.price), t, "llm_sell", worth);
  }

  /** An approved verdict hands on what was sized, and its stop with the fallback applied. */
  lemma {:induction false} VerdictSizes(cfg: RiskConfig, p: TradeProposal, s: RiskState, cap: real, v: RiskVerdict)
    requires M.Capped(cfg, cap) && M.EntryOf(cfg, p, s, cap, v)
    ensures v.size.Some? && Sized(cfg, p, s, cap, v.size.value)
  {
    hide M.Capped, M.SizedFor, M.Budget;
  }

  lemma {:induction false} VerdictLevels(su: Setup, p: TradeProposal, s: RiskState, cap: real, v: RiskVerdict)
    requires su.ar.Exact? && M.EntryOf(su.risk, p, s, cap, v)
    ensures Leveled(su.risk, p, EntryStop(su, v, p.price), v.takeProfit)
  {
    hide M.SizedFor, M.Budget;
  }

  lemma {:induction false} EnteredOf(
    su: Setup, st: EngineState, t: Tick, next: EngineState, e: LogEvent, cap: real, size: PositionSize, stop: real,
    target: Option<real>)
    requires Sized(su.risk, Judged(st, t).0, Judged(st, t).1, cap, size)
    requires Purchase(su, st.book, next.book, size.quantity, t.price, e) && e.quantity.Some? && e.execPrice.Some?
    requires Leveled(su.risk, Judged(st, t).0, stop, target) && next.realizedToday == st.realizedToday
    requires next.position
      == Some(PaperPosition(e.quantity.value, e.execPrice.value, stop, target, e.execPrice.value, t.ts))
    ensures Entered(su, st, t, next, e)
  {
    hide Sized, Purchase, Leveled;
  }

  lemma {:induction false} DecisionBuys(su: Setup, st: EngineState, t: Tick, worth: real)
    requires SoundSetup(su) && Solvent(su, st) && t.decision.action.Buy?
    requires M.Objection(su.risk, Judged(st, t).0, Judged(st, t).1).None?
    ensures
      var (next, outcome) := Decide(su, st, t.killActive, t.decision, t.price, t.atr, t.ts);
      outcome.Done? ==> Decided(su, st, t, next, Logged(t, outcome.event, worth))
  {
    hide Evaluate, M.Objection, Purchase, Entered, Solvent, Open, Sized, Leveled, EntryStop, M.EntryOf, M.Capped;
    ViewIsJudged(su, st, t);
    var (p, s) := Judged(st, t);
    M.ApprovedIff(su.risk, p, s);
    M.EntryMeans(su.risk, p, s);
    var v := Evaluate(su.ar, su.risk, p, s);
    var cap :| M.Capped(su.risk, cap) && M.EntryOf(su.risk, p, s, cap, v);
    VerdictSizes(su.risk, p, s, cap, v);
    VerdictLevels(su, p, s, cap, v);
    ApprovedBuy(su, st, t.killActive, t.decision, t.price, t.atr);
    EntryWithinCap(su.risk, p, s);
    MarkingKeepsSolvent(su, st, t.price);
    var marked, stop := MarkPeak(su, st, t.price), EntryStop(su, v, t.price);
    if Open(su, marked, v.size.value.quantity, t.price, stop, v.takeProfit, t.ts).1.Done? {
      OpenBuys(su, marked, t, v.size.value.quantity, stop, v.takeProfit, worth);
      var (next, outcome) := Open(su, marked, v.size.value.quantity, t.price, stop, v.takeProfit, t.ts);
      var e := Logged(t, outcome.event, worth);
      EnteredOf(su, st, t, next, e, cap, v.size.value, stop, v.takeProfit);
    }
  }

  lemma {:induction false} DecisionMeans(su: Setup, st: EngineState, t: Tick, worth: real)
    requires SoundSetup(su) && Solvent(su, st) && t.price >= 0.0
    ensures
      var (next, outcome) := Decide(su, st, t.killActive, t.decision, t.price, t.atr, t.ts);
      outcome.Done? ==> Decided(su, st, t, next, Logged(t, outcome.event, worth))
  {
    hide Decide, Decided, M.Objection, Solvent;
    if M.Objection(su.risk, Judged(st, t).0, Judged(st, t).1).Some? {
      DecisionRejected(su, st, t, worth);
    } else {
      match t.decision.action
      case Hold => DecisionHolds(su, st, t, worth);
      case Sell => DecisionSells(su, st, t, worth);
      case Buy => DecisionBuys(su, st, t, worth);
    }
  }

  // ---- the tick

  /** The open position after seeing a price: the highest price so far, and the stop trailing it but never lowered. */
  function Trailed(cfg: RiskConfig, pos: PaperPosition, price: real, atr: real): PaperPosition {
    var highest := if price > pos.highestPrice then price else pos.highestPrice;
    var trail := highest - cfg.trailingAtrMultiplier * atr;
    pos.(highestPrice := highest,
         stopLoss := if atr > 0.0 && highest > 0.0 && trail > pos.stopLoss then trail else pos.stopLoss)
  }

  /** The price leaves a position at or below its stop, which comes first, or at or above its target. */
  predicate LeavesFor(pos: PaperPosition, price: real, reason: string) {
    match reason
    case "stop_loss" => price <= pos.stopLoss <= pos.entryPrice
    case "trailing_stop" => price <= pos.stopLoss && pos.stopLoss > pos.entryPrice
    case "take_profit" => price > pos.stopLoss && pos.takeProfit.Some? && price >= pos.takeProfit.value
    case _ => false
  }

  predicate Stays(pos: PaperPosition, price: real) {
    price > pos.stopLoss && (pos.takeProfit.Some? ==> price < pos.takeProfit.value)
  }

  /** The engine as the decision of a tick finds it: on the day of the tick, with its position trailed. */
  function Found(su: Setup, st: EngineState, t: Tick): EngineState {
    st.(lastTs := Some(t.ts), day := Some(UtcDay(t.ts)), realizedToday := Today(st, t.ts), lastPrice := Some(t.price),
        lastAtr := t.atr.GetOr(0.0),
        position := if st.position.None? then None
                    else Some(Trailed(su.risk, st.position.value, t.price, t.atr.GetOr(0.0))))
  }

  /** Everything one tick does, the peak apart. */
  ghost predicate Ticked(su: Setup, st: EngineState, t: Tick, next: EngineState, e: LogEvent) {
    var found := Found(su, st, t);
    && e.ts == t.ts && e.killActive == t.killActive && e.equity == next.book.cash + next.book.position * t.price
    && next.lastTs == found.lastTs && next.day == found.day
    && next.lastPrice == found.lastPrice && next.lastAtr == found.lastAtr
    && if found.position.None? || Stays(found.position.value, t.price) then Decided(su, found, t, next, e)
       else
         && LeavesFor(found.position.value, t.price, e.exitReason)
         && Sale(su, st.book, next.book, t.price, e) && next.position.None?
         && next.realizedToday == found.realizedToday + (next.book.realizedPnl - st.book.realizedPnl)
         && Counts(st, next, false, false, false)
  }

  lemma {:induction false} FoundIs(su: Setup, st: EngineState, t: Tick)
    requires su.ar.Exact?
    ensures
      var seen := Arrive(st, t.price, t.atr, t.ts);
      Found(su, st, t) ==
      if seen.position.None? then seen
      else seen.(position := Some(Raise(su, seen.position.value, t.price, seen.lastAtr)))
  {
  }

  lemma {:induction false} ExitIs(pos: PaperPosition, price: real)
    ensures ExitReason(pos, price).None? <==> Stays(pos, price)
    ensures ExitReason(pos, price).Some? ==> LeavesFor(pos, price, ExitReason(pos, price).value)
  {
  }

  lemma {:induction false} FoundSolvent(su: Setup, st: EngineState, t: Tick)
    requires Solvent(su, st)
    ensures Solvent(su, Found(su, st, t))
  {
  }

  lemma {:induction false} DecideKeepsRest(
    su: Setup, st: EngineState, killActive: bool, d: Decision, price: real, atr: Option<real>, ts: int)
    ensures
      var next := Decide(su, st, killActive, d, price, atr, ts).0;
      && next.lastTs == st.lastTs && next.day == st.day && next.lastPrice == st.lastPrice && next.lastAtr == st.lastAtr
  {
    hide Evaluate, BuyFill, SellFill;
  }

  lemma {:induction false} PeakAside(
    su: Setup, st: EngineState, t: Tick, mid: EngineState, next: EngineState, e: LogEvent)
    requires Decided(su, st, t, mid, e) && next == mid.(peakEquity := next.peakEquity)
    ensures Decided(su, st, t, next, e)
  {
    hide M.Objection, Sized, Purchase, Sale, NoOrder, Leveled;
    if Entered(su, st, t, mid, e) {
      var (p, s) := Judged(st, t);
      var size: PositionSize, cap: real :|
        Sized(su.risk, p, s, cap, size) && Purchase(su, st.book, mid.book, size.quantity, t.price, e);
      assert Purchase(su, st.book, next.book, size.quantity, t.price, e);
    }
  }

  lemma {:induction false} TickMeans(su: Setup, st: EngineState, t: Tick)
    requires SoundSetup(su) && Solvent(su, st) && t.price >= 0.0 && SessionStep(su, st, t).Some?
    ensures
      var (next, e) := SessionStep(su, st, t).value;
      Ticked(su, st, t, next, e)
  {
    hide Decide, Close, Decided, Sale, Solvent, ExitReason, Found, LeavesFor, Stays;
    var found := Found(su, st, t);
    FoundIs(su, st, t);
    FoundSolvent(su, st, t);
    var (mid, outcome) := OnPrice(su, st, t.killActive, t.decision, t.price, t.atr, t.ts);
    var worth := Equity(su.ar, mid.book, t.price);
    MarkingChangesPeak(su, mid, t.price);
    if found.position.Some? {
      ExitIs(found.position.value, t.price);
    }
    if found.position.Some? && ExitReason(found.position.value, t.price).Some? {
      CloseSells(su, found, t, ExitReason(found.position.value, t.price).value, worth);
    } else {
      DecisionMeans(su, found, t, worth);
      DecideKeepsRest(su, found, t.killActive, t.decision, t.price, t.atr, t.ts);
      PeakAside(su, found, t, mid, SessionStep(su, st, t).value.0, SessionStep(su, st, t).value.1);
    }
  }

  /** Every line of every session's log is what its tick does to the engine it finds. */
  lemma {:induction false} SessionMeans(su: Setup, ticks: seq<Tick>, k: nat)
    requires SoundSetup(su) && Priced(ticks) && k < |ticks| && RunSession(su, ticks).Some?
    ensures |RunSession(su, ticks).value.log| == |ticks|
    ensures
      Ticked(su, D.StateAfter(su, ticks, k), ticks[k], D.StateAfter(su, ticks, k + 1),
             RunSession(su, ticks).value.log[k])
  {
    hide SessionStep, Ticked, Solvent;
    D.LogExtends(su, ticks, k + 1);
    D.StepOfPrefix(su, ticks, k);
    D.LogLine(su, ticks, k);
    SessionStaysSolvent(su, ticks[..k]);
    TickMeans(su, D.StateAfter(su, ticks, k), ticks[k]);
    D.LogExtends(su, ticks, k);
  }
}
