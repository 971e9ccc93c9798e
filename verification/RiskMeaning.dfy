/** The risk verdict in money: when an order passes, and what an entry puts at risk. */
module RiskMeaning {
  import opened Numerics
  import opened Portfolio
  import opened Risk

  // ---- the quantities the rules speak of

  /** The account has fallen from its peak by the drawdown limit or more. */
  predicate Drawn(cfg: RiskConfig, s: RiskState) {
    s.peakEquity > 0.0 && s.equity <= s.peakEquity && s.equity <= s.peakEquity * (1.0 - cfg.maxDrawdown)
  }

  /** The day has lost its limit, a share of the capital, or more. */
  predicate Broke(cfg: RiskConfig, s: RiskState) {
    s.realizedToday + cfg.capital * cfg.maxDailyLoss <= 0.0
  }

  /** What part of the drawdown limit is still unused. */
  function Unused(cfg: RiskConfig, s: RiskState): real {
    if s.peakEquity <= 0.0 || s.equity >= s.peakEquity || cfg.maxDrawdown == 0.0 then 1.0
    else 1.0 - (s.peakEquity - s.equity) / s.peakEquity / cfg.maxDrawdown
  }

  /** The capital an entry may lose if its stop is hit. */
  function Budget(cfg: RiskConfig, intensity: Intensity, s: RiskState): real {
    var share := match intensity
      case Low => cfg.lowRiskPct
      case Medium => cfg.mediumRiskPct
      case High => cfg.highRiskPct;
    cfg.capital * share * Unused(cfg, s)
  }

  /** The most an entry may be worth: the allocation cap, and no leverage. */
  predicate Capped(cfg: RiskConfig, cap: real) {
    && cap <= cfg.maxPositionAllocation * cfg.capital && cap <= cfg.capital * (1.0 - cfg.leverage)
    && (cap == cfg.maxPositionAllocation * cfg.capital || cap == cfg.capital * (1.0 - cfg.leverage))
  }

  predicate HasAtr(p: TradeProposal) {
    p.atr.Some? && p.atr.value > 0.0
  }

  // ---- arithmetic

  lemma {:induction false} ShareOf(part: real, whole: real, limit: real)
    requires whole > 0.0
    ensures part / whole >= limit <==> part >= limit * whole
  {
    var share := part / whole;
    assert share * whole == part;
    SameOrder(share, limit, whole);
  }

  lemma {:induction false} SameOrder(a: real, b: real, k: real)
    requires k > 0.0
    ensures a >= b <==> a * k >= b * k
  {
    if a >= b {
      Scale(b, a, k);
    } else {
      ScaleStrictly(a, b, k);
    }
  }

  lemma {:induction false} Scale(a: real, b: real, k: real)
    requires a <= b && k >= 0.0
    ensures a * k <= b * k
  {
    var gap := b - a;
    assert gap * k >= 0.0;
    assert gap * k == b * k - a * k;
  }

  lemma {:induction false} ScaleStrictly(a: real, b: real, k: real)
    requires a < b && k > 0.0
    ensures a * k < b * k
  {
    var gap := b - a;
    assert gap * k > 0.0;
    assert gap * k == b * k - a * k;
  }

  lemma {:induction false} Quotient(x: real, d: real)
    requires d > 0.0
    ensures (x / d) * d == x
    ensures x / d > 0.0 <==> x > 0.0
  {
    var q := x / d;
    assert q * d == x;
    if q > 0.0 {
      ScaleStrictly(0.0, q, d);
    } else {
      Scale(q, 0.0, d);
    }
  }

  lemma {:induction false} DrawnIff(cfg: RiskConfig, s: RiskState)
    ensures DrawdownExceeded(Exact, s.peakEquity, s.equity, cfg) <==> Drawn(cfg, s)
  {
    if s.peakEquity > 0.0 {
      ShareOf(s.peakEquity - s.equity, s.peakEquity, cfg.maxDrawdown);
      assert s.peakEquity * (1.0 - cfg.maxDrawdown) == s.peakEquity - cfg.maxDrawdown * s.peakEquity;
    }
  }

  lemma {:induction false} UnusedIsScale(cfg: RiskConfig, s: RiskState)
    requires !Drawn(cfg, s)
    ensures DrawdownScale(Exact, CurrentDrawdown(Exact, s.peakEquity, s.equity), cfg.maxDrawdown) == Unused(cfg, s)
  {
    DrawnIff(cfg, s);
    if s.peakEquity > 0.0 && s.equity < s.peakEquity {
      var fallen := (s.peakEquity - s.equity) / s.peakEquity;
      Quotient(s.peakEquity - s.equity, s.peakEquity);
      assert 0.0 < fallen < cfg.maxDrawdown;
      Complement(cfg.maxDrawdown, fallen);
    }
  }

  lemma {:induction false} Complement(whole: real, part: real)
    requires whole > 0.0
    ensures (whole - part) / whole == 1.0 - part / whole
  {
    var share, rest := part / whole, (whole - part) / whole;
    assert share * whole == part;
    assert rest * whole == whole - part;
    OneOverAll(share, rest, part, whole);
  }

  lemma {:induction false} OneOverAll(share: real, rest: real, part: real, whole: real)
    requires whole > 0.0 && share * whole == part && rest * whole == whole - part
    ensures share + rest == 1.0
  {
    var off := share + rest - 1.0;
    assert off * whole == share * whole + rest * whole - whole;
    SameOrder(off, 0.0, whole);
    SameOrder(0.0, off, whole);
  }

  lemma {:induction false} CapIsMaxNotional(cfg: RiskConfig)
    ensures Capped(cfg, MaxNotional(Exact, cfg))
  {
  }

  // ---- sizing

  /** The size of an entry with an ATR: the budget over the stop distance, or what the cap affords if that is less. */
  predicate SizedFor(cfg: RiskConfig, budget: real, distance: real, price: real, cap: real, size: PositionSize) {
    && size.stopDistance == distance && size.notional == size.quantity * price
    && size.riskAmount == size.quantity * distance
    && (if size.capped then size.notional == cap && cap * distance < budget * price
        else size.riskAmount == budget && size.notional <= cap)
  }

  lemma {:induction false} CapBinds(wanted: real, budget: real, distance: real, price: real, cap: real)
    requires distance > 0.0 && wanted * distance == budget
    ensures wanted * price > cap <==> cap * distance < budget * price
  {
    assert (wanted * price) * distance == budget * price;
    if wanted * price > cap {
      ScaleStrictly(cap, wanted * price, distance);
    } else {
      Scale(wanted * price, cap, distance);
    }
  }

  /** The quantity wanted, or what the cap affords if that is less, is the size of its budget. */
  lemma {:induction false} SizedEither(
    cfg: RiskConfig, wanted: real, budget: real, distance: real, price: real, cap: real, size: PositionSize)
    requires distance > 0.0 && price > 0.0 && wanted * distance == budget
    requires size == if wanted * price > cap then PositionSize(cap / price, cap, distance, cap / price * distance, true)
                     else PositionSize(wanted, wanted * price, distance, wanted * distance, false)
    ensures SizedFor(cfg, budget, distance, price, cap, size)
  {
    Quotient(cap, price);
    CapBinds(wanted, budget, distance, price, cap);
  }

  lemma {:induction false} SizeMeans(cfg: RiskConfig, p: TradeProposal, s: RiskState)
    requires !Drawn(cfg, s) && HasAtr(p) && cfg.stopAtrMultiplier * p.atr.value > 0.0 && p.price > 0.0
    ensures
      var drawdown := CurrentDrawdown(Exact, s.peakEquity, s.equity);
      var size := ComputePositionSize(Exact, p.intensity, p.atr.value, p.price, drawdown, cfg);
      SizedFor(cfg, Budget(cfg, p.intensity, s), cfg.stopAtrMultiplier * p.atr.value, p.price, MaxNotional(Exact, cfg),
               size)
  {
    hide DrawdownScale, CurrentDrawdown, Unused, MaxNotional, Drawn, SizedFor;
    UnusedIsScale(cfg, s);
    var distance, cap := cfg.stopAtrMultiplier * p.atr.value, MaxNotional(Exact, cfg);
    var budget := Budget(cfg, p.intensity, s);
    Quotient(budget, distance);
    var drawdown := CurrentDrawdown(Exact, s.peakEquity, s.equity);
    SizedEither(cfg, budget / distance, budget, distance, p.price, cap,
                ComputePositionSize(Exact, p.intensity, p.atr.value, p.price, drawdown, cfg));
  }

  /** Once the drawdown has used its limit up there is nothing left to lose, and nothing is sized. */
  lemma {:induction false} NothingLeft(cfg: RiskConfig, intensity: Intensity, atr: real, price: real, drawdown: real)
    requires drawdown > 0.0 && drawdown >= cfg.maxDrawdown
    ensures ComputePositionSize(Exact, intensity, atr, price, drawdown, cfg).quantity <= 0.0
  {
    var cap := MaxNotional(Exact, cfg);
    if cfg.stopAtrMultiplier * atr > 0.0 && price > 0.0 && cap < 0.0 {
      Quotient(cap, price);
    }
  }

  lemma {:induction false} PositiveSizeIff(budget: real, distance: real, price: real, cap: real, size: PositionSize)
    requires distance > 0.0 && price > 0.0
    requires size.notional == size.quantity * price && size.riskAmount == size.quantity * distance
    requires
      if size.capped then size.notional == cap && cap * distance < budget * price
      else size.riskAmount == budget && size.notional <= cap
    ensures size.quantity > 0.0 <==> budget > 0.0 && cap > 0.0
  {
    var q := size.quantity;
    if q > 0.0 {
      ScaleStrictly(0.0, q, price);
      ScaleStrictly(0.0, q, distance);
      if size.capped {
        ScaleStrictly(0.0, cap, distance);
        SignOf(budget, price);
      }
    } else {
      Scale(q, 0.0, price);
      Scale(q, 0.0, distance);
    }
  }

  lemma {:induction false} SignOf(x: real, k: real)
    requires k > 0.0 && x * k > 0.0
    ensures x > 0.0
  {
    if x <= 0.0 {
      Scale(x, 0.0, k);
      assert false;
    }
  }

  // ---- the verdict

  /** The entry has a price, a cap above nothing and, if it has an ATR, a stop below it and a budget to lose. */
  predicate Sizeable(cfg: RiskConfig, p: TradeProposal, s: RiskState) {
    && p.price > 0.0 && cfg.maxPositionAllocation * cfg.capital > 0.0 && cfg.capital * (1.0 - cfg.leverage) > 0.0
    && (HasAtr(p) ==> cfg.stopAtrMultiplier * p.atr.value > 0.0 && Budget(cfg, p.intensity, s) > 0.0)
  }

  /** The first rule that stands against the order, if any does. */
  function Objection(cfg: RiskConfig, p: TradeProposal, s: RiskState): Option<string> {
    if s.killActive then Some("kill_switch")
    else if Drawn(cfg, s) then Some("max_drawdown")
    else
      match p.action
      case Hold => None
      case Sell => if s.openPositions == 0 then Some("no_position_to_reduce") else None
      case Buy =>
        if Broke(cfg, s) then Some("max_daily_loss")
        else if s.openPositions >= cfg.maxOpenPositions then Some("max_open_positions")
        else if cfg.stopLossRequired && !HasAtr(p) then Some("stop_unavailable")
        else if !Sizeable(cfg, p, s) then Some("zero_size")
        else None
  }

  lemma {:induction false} EntrySizeable(cfg: RiskConfig, p: TradeProposal, s: RiskState)
    requires !Drawn(cfg, s)
    ensures SizeEntry(Exact, cfg, p, s).approved <==> Sizeable(cfg, p, s)
    ensures !SizeEntry(Exact, cfg, p, s).approved ==> SizeEntry(Exact, cfg, p, s).reason == "zero_size"
  {
    hide Drawn, Budget, ComputePositionSize, MaxNotional, CurrentDrawdown;
    CapPositiveIff(cfg);
    if HasAtr(p) {
      SizedPositiveIff(cfg, p, s);
    } else if p.price > 0.0 {
      Quotient(MaxNotional(Exact, cfg), p.price);
    }
  }

  lemma {:induction false} CapPositiveIff(cfg: RiskConfig)
    ensures
      MaxNotional(Exact, cfg) > 0.0
      <==> cfg.maxPositionAllocation * cfg.capital > 0.0 && cfg.capital * (1.0 - cfg.leverage) > 0.0
  {
  }

  lemma {:induction false} SizedPositiveIff(cfg: RiskConfig, p: TradeProposal, s: RiskState)
    requires !Drawn(cfg, s) && HasAtr(p)
    ensures
      var drawdown := CurrentDrawdown(Exact, s.peakEquity, s.equity);
      ComputePositionSize(Exact, p.intensity, p.atr.value, p.price, drawdown, cfg).quantity > 0.0
      <==> p.price > 0.0 && cfg.stopAtrMultiplier * p.atr.value > 0.0 && MaxNotional(Exact, cfg) > 0.0
           && Budget(cfg, p.intensity, s) > 0.0
  {
    hide Drawn, Budget, MaxNotional, CurrentDrawdown, DrawdownScale;
    var distance := cfg.stopAtrMultiplier * p.atr.value;
    if distance > 0.0 && p.price > 0.0 {
      SizeMeans(cfg, p, s);
      var drawdown := CurrentDrawdown(Exact, s.peakEquity, s.equity);
      PositiveSizeIff(Budget(cfg, p.intensity, s), distance, p.price, MaxNotional(Exact, cfg),
                      ComputePositionSize(Exact, p.intensity, p.atr.value, p.price, drawdown, cfg));
    }
  }

  /** An order passes if and only if no rule stands against it, and is otherwise rejected for the first that does. */
  lemma {:induction false} ApprovedIff(cfg: RiskConfig, p: TradeProposal, s: RiskState)
    ensures
      var v := Evaluate(Exact, cfg, p, s);
      && (v.approved <==> Objection(cfg, p, s).None?)
      && (!v.approved ==> Some(v.reason) == Objection(cfg, p, s))
  {
    hide SizeEntry, Sizeable, Drawn, DrawdownExceeded;
    DrawnIff(cfg, s);
    if !Drawn(cfg, s) {
      EntrySizeable(cfg, p, s);
    }
  }

  /** What an approved entry is: with an ATR it loses exactly its budget at the stop, or less if the cap binds, stops
      the multiple of the ATR below the price and aims its multiple of that distance above; without one it is worth the
      cap and has no levels. */
  lemma {:induction false} EntryMeans(cfg: RiskConfig, p: TradeProposal, s: RiskState)
    requires p.action.Buy? && Evaluate(Exact, cfg, p, s).approved
    ensures
      var v := Evaluate(Exact, cfg, p, s);
      && v.size.Some?
      && exists cap :: Capped(cfg, cap) && EntryOf(cfg, p, s, cap, v)
  {
    hide Drawn, EntryOf, SizeEntry, Capped, Sizeable, Broke;
    ApprovedIff(cfg, p, s);
    DrawnIff(cfg, s);
    CapIsMaxNotional(cfg);
    EvaluateSizes(cfg, p, s);
    EntrySized(cfg, p, s);
    EntryHasSize(cfg, p, s, MaxNotional(Exact, cfg), Evaluate(Exact, cfg, p, s));
  }

  lemma {:induction false} EvaluateSizes(cfg: RiskConfig, p: TradeProposal, s: RiskState)
    requires p.action.Buy? && Evaluate(Exact, cfg, p, s).approved
    ensures Evaluate(Exact, cfg, p, s) == SizeEntry(Exact, cfg, p, s)
  {
    hide SizeEntry;
  }

  lemma {:induction false} EntryHasSize(cfg: RiskConfig, p: TradeProposal, s: RiskState, cap: real, v: RiskVerdict)
    requires EntryOf(cfg, p, s, cap, v)
    ensures v.size.Some?
  {
  }

  /** With an ATR: sized for the budget, stop and target at their distances. Without: worth the cap, no levels. */
  predicate EntryOf(cfg: RiskConfig, p: TradeProposal, s: RiskState, cap: real, v: RiskVerdict) {
    v.size.Some? &&
    if HasAtr(p) then
      var distance := cfg.stopAtrMultiplier * p.atr.value;
      && SizedFor(cfg, Budget(cfg, p.intensity, s), distance, p.price, cap, v.size.value)
      && v.stopLoss.Some? && v.stopLoss.value == p.price - distance
      && v.takeProfit.Some? && v.takeProfit.value == p.price + cfg.takeProfitRMultiple * distance
    else
      && v.size.value.notional == cap == v.size.value.quantity * p.price
      && v.stopLoss.None? && v.takeProfit.None?
  }

  lemma {:induction false} EntrySized(cfg: RiskConfig, p: TradeProposal, s: RiskState)
    requires !Drawn(cfg, s) && Sizeable(cfg, p, s) && SizeEntry(Exact, cfg, p, s).approved
    ensures EntryOf(cfg, p, s, MaxNotional(Exact, cfg), SizeEntry(Exact, cfg, p, s))
  {
    hide Drawn, Budget, ComputePositionSize, MaxNotional, CurrentDrawdown;
    if HasAtr(p) {
      SizeMeans(cfg, p, s);
      var distance := cfg.stopAtrMultiplier * p.atr.value;
      TargetAbove(p.price, distance, cfg.takeProfitRMultiple);
    } else {
      Quotient(MaxNotional(Exact, cfg), p.price);
    }
  }

  lemma {:induction false} TargetAbove(price: real, distance: real, multiple: real)
    ensures price + multiple * (price - (price - distance)) == price + multiple * distance
  {
    assert price - (price - distance) == distance;
  }
}
