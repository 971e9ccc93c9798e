/** The risk engine: sizing, stops, protective guards and the verdict every order passes through. */
module Risk {
  import opened Numerics
  import opened Portfolio

  datatype Intensity = Low | Medium | High

  datatype RiskConfig = RiskConfig(
    capital: real,
    maxPositionAllocation: real,
    maxDailyLoss: real,
    maxDrawdown: real,
    maxOpenPositions: int,
    leverage: real,
    stopLossRequired: bool,
    stopAtrMultiplier: real,
    takeProfitRMultiple: real,
    trailingAtrMultiplier: real,
    lowRiskPct: real,
    mediumRiskPct: real,
    highRiskPct: real)
  {
    function RiskBudgetPct(intensity: Intensity): real {
      match intensity
      case Low => lowRiskPct
      case Medium => mediumRiskPct
      case High => highRiskPct
    }
  }

  /** The configuration the repository ships with. */
  const DEFAULT_RISK: RiskConfig :=
    RiskConfig(1000.0, 0.02, 0.02, 0.05, 1, 0.0, true, 2.0, 2.0, 3.0, 0.005, 0.01, 0.02)

  datatype KillSwitchState = KillSwitchState(active: bool, reason: string, activatedAt: int)

  datatype TradeProposal = TradeProposal(action: Action, intensity: Intensity, price: real, atr: Option<real>)

  datatype RiskState = RiskState(
    openPositions: int,
    realizedToday: real,
    peakEquity: real,
    equity: real,
    killActive: bool)

  datatype PositionSize = PositionSize(
    quantity: real,
    notional: real,
    stopDistance: real,
    riskAmount: real,
    capped: bool)

  datatype RiskVerdict = RiskVerdict(
    approved: bool,
    reason: string,
    size: Option<PositionSize>,
    stopLoss: Option<real>,
    takeProfit: Option<real>)

  // ---- guards

  predicate DailyLossExceeded(ar: Arith, realizedToday: real, capital: real, cfg: RiskConfig) {
    realizedToday <= -ar.Mul(capital, cfg.maxDailyLoss)
  }

  predicate DrawdownExceeded(ar: Arith, peak: real, equity: real, cfg: RiskConfig) {
    peak > 0.0 && equity <= peak && ar.Div(ar.Sub(peak, equity), peak) >= cfg.maxDrawdown
  }

  function CurrentDrawdown(ar: Arith, peak: real, equity: real): real {
    if peak <= 0.0 || equity >= peak then 0.0 else ar.Div(ar.Sub(peak, equity), peak)
  }

  // ---- stops

  function InitialStop(ar: Arith, entry: real, atr: real, cfg: RiskConfig): real {
    ar.Sub(entry, ar.Mul(cfg.stopAtrMultiplier, atr))
  }

  function TakeProfit(ar: Arith, entry: real, stop: real, cfg: RiskConfig): real {
    ar.Add(entry, ar.Mul(cfg.takeProfitRMultiple, ar.Sub(entry, stop)))
  }

  /** The trailing stop never moves down. */
  function UpdateTrailing(ar: Arith, stop: real, highest: real, atr: real, cfg: RiskConfig): (r: real)
    ensures r >= stop
  {
    if atr <= 0.0 || highest <= 0.0 then stop
    else Max(stop, ar.Sub(highest, ar.Mul(cfg.trailingAtrMultiplier, atr)))
  }

  // ---- sizing

  function DrawdownScale(ar: Arith, drawdown: real, maxDrawdown: real): real {
    if drawdown <= 0.0 then 1.0
    else if drawdown >= maxDrawdown then 0.0
    else ar.Div(ar.Sub(maxDrawdown, drawdown), maxDrawdown)
  }

  function MaxNotional(ar: Arith, cfg: RiskConfig): real {
    Min(ar.Mul(cfg.maxPositionAllocation, cfg.capital), ar.Mul(cfg.capital, ar.Sub(1.0, cfg.leverage)))
  }

  function ComputePositionSize(
    ar: Arith, intensity: Intensity, atr: real, price: real, drawdown: real, cfg: RiskConfig): PositionSize
  {
    var stopDistance := if atr > 0.0 then ar.Mul(cfg.stopAtrMultiplier, atr) else 0.0;
    if stopDistance <= 0.0 || price <= 0.0 then PositionSize(0.0, 0.0, 0.0, 0.0, false)
    else
      var scale := DrawdownScale(ar, drawdown, cfg.maxDrawdown);
      var wanted := ar.Div(ar.Mul(ar.Mul(cfg.capital, cfg.RiskBudgetPct(intensity)), scale), stopDistance);
      var cap := MaxNotional(ar, cfg);
      var capped := ar.Mul(wanted, price) > cap;
      var quantity := if capped then ar.Div(cap, price) else wanted;
      PositionSize(quantity, if capped then cap else ar.Mul(wanted, price), stopDistance,
                   ar.Mul(quantity, stopDistance), capped)
  }

  // ---- verdict

  function Reject(reason: string): RiskVerdict {
    RiskVerdict(false, reason, None, None, None)
  }

  /** The part of the verdict that sizes a new position, once every guard has let it through. */
  function SizeEntry(ar: Arith, cfg: RiskConfig, p: TradeProposal, s: RiskState): RiskVerdict {
    var atr := p.atr.GetOr(0.0);
    if atr <= 0.0 then
      var cap := MaxNotional(ar, cfg);
      var quantity := if p.price > 0.0 then ar.Div(cap, p.price) else 0.0;
      if quantity <= 0.0 then Reject("zero_size")
      else RiskVerdict(true, "ok_unstopped", Some(PositionSize(quantity, cap, 0.0, 0.0, true)), None, None)
    else
      var drawdown := CurrentDrawdown(ar, s.peakEquity, s.equity);
      var size := ComputePositionSize(ar, p.intensity, atr, p.price, drawdown, cfg);
      if size.quantity <= 0.0 then Reject("zero_size")
      else
        var stop := InitialStop(ar, p.price, atr, cfg);
        RiskVerdict(true, "ok", Some(size), Some(stop), Some(TakeProfit(ar, p.price, stop, cfg)))
  }

  /** Guards in fixed priority: kill switch, drawdown, then for buys daily loss, open positions, stop, size. */
  function Evaluate(ar: Arith, cfg: RiskConfig, p: TradeProposal, s: RiskState): RiskVerdict {
    if s.killActive then Reject("kill_switch")
    else if DrawdownExceeded(ar, s.peakEquity, s.equity, cfg) then Reject("max_drawdown")
    else if p.action.Hold? then RiskVerdict(true, "no_op", None, None, None)
    else if p.action.Sell? then
      if s.openPositions == 0 then Reject("no_position_to_reduce")
      else RiskVerdict(true, "reduce", None, None, None)
    else if DailyLossExceeded(ar, s.realizedToday, cfg.capital, cfg) then Reject("max_daily_loss")
    else if s.openPositions >= cfg.maxOpenPositions then Reject("max_open_positions")
    else if cfg.stopLossRequired && (p.atr.None? || p.atr.value <= 0.0) then Reject("stop_unavailable")
    else SizeEntry(ar, cfg, p, s)
  }

  /** In exact arithmetic no approved entry is sized above the allocation cap, and every one has a positive size. */
  lemma {:induction false} EntryWithinCap(cfg: RiskConfig, p: TradeProposal, s: RiskState)
    requires p.action.Buy? && Evaluate(Exact, cfg, p, s).approved
    ensures
      var size := Evaluate(Exact, cfg, p, s).size;
      && size.Some? && size.value.quantity > 0.0 && p.price > 0.0
      && size.value.notional == size.value.quantity * p.price
      && size.value.notional <= cfg.maxPositionAllocation * cfg.capital
      && size.value.notional <= cfg.capital * (1.0 - cfg.leverage)
  {
    var size := Evaluate(Exact, cfg, p, s).size.value;
    if size.capped {
      var cap := MaxNotional(Exact, cfg);
      assert (cap / p.price) * p.price == cap;
    }
  }

  lemma {:induction false} ShareOfPeak(peak: real, equity: real, limit: real)
    requires peak > 0.0 && (peak - equity) / peak < limit
    ensures equity > peak * (1.0 - limit)
    ensures limit <= 1.0 ==> equity > 0.0
  {
    var drawdown := (peak - equity) / peak;
    assert drawdown * peak == peak - equity;
    var room := limit - drawdown;
    assert room * peak > 0.0;
    assert room * peak == limit * peak - drawdown * peak;
    assert peak * (1.0 - limit) == peak - limit * peak;
    if limit <= 1.0 {
      var kept := 1.0 - limit;
      assert peak * kept >= 0.0;
    }
  }

  /** An approved entry is never closer to ruin than the drawdown guard allows: the equity behind it is above the peak,
      or above the share of the peak the limit leaves; with a limit of at most the whole account it is positive. */
  lemma {:induction false} EntryNeedsEquity(cfg: RiskConfig, p: TradeProposal, s: RiskState)
    requires p.action.Buy? && Evaluate(Exact, cfg, p, s).approved
    requires s.peakEquity > 0.0
    ensures s.equity > s.peakEquity || s.equity > s.peakEquity * (1.0 - cfg.maxDrawdown)
    ensures cfg.maxDrawdown <= 1.0 ==> s.equity > 0.0
  {
    if s.equity <= s.peakEquity {
      ShareOfPeak(s.peakEquity, s.equity, cfg.maxDrawdown);
    }
  }

  /** Latched emergency stop: activation is idempotent, and only an approved human reset clears it. */
  class KillSwitch {
    var state: KillSwitchState

    constructor (initial: KillSwitchState)
      ensures state == initial
    {
      state := initial;
    }

    method Activate(reason: string, ts: int)
      modifies this
      ensures state == if old(state.active) then old(state) else KillSwitchState(true, reason, ts)
    {
      if !state.active {
        state := KillSwitchState(true, reason, ts);
      }
    }

    /** `denied` reports the permission error; the switch is then untouched. */
    method Reset(byHuman: bool, approvalId: string) returns (denied: bool)
      modifies this
      ensures denied <==> !byHuman || approvalId == ""
      ensures state == if denied then old(state) else KillSwitchState(false, "", 0)
    {
      if !byHuman || approvalId == "" {
        return true;
      }
      state := KillSwitchState(false, "", 0);
      return false;
    }
  }
}
