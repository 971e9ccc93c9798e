/** Two engines, one exit rule: the paper engine raises its stop before judging a price, the replay judges first. */
module ExitAgreement {
  import opened Numerics
  import opened Risk
  import P = PaperTrading
  import R = Replay

  datatype Exit = Exit(index: nat, reason: string)

  function Later(e: Option<Exit>): Option<Exit> {
    match e
    case Some(x) => Some(Exit(x.index + 1, x.reason))
    case None => None
  }

  /** The first price of a path at which the paper engine's own exit check closes the position. */
  function PaperExit(su: P.Setup, pos: P.PaperPosition, prices: seq<real>, atr: real): Option<Exit>
    decreases |prices|
  {
    if prices == [] then None
    else
      var raised := P.Raise(su, pos, prices[0], atr);
      match P.ExitReason(raised, prices[0])
      case Some(reason) => Some(Exit(0, reason))
      case None => Later(PaperExit(su, raised, prices[1..], atr))
  }

  /** The same for the replay engine, trade by trade after the fill. */
  function ReplayExit(sc: R.Scenario, pos: R.Position, prices: seq<real>): Option<Exit>
    decreases |prices|
  {
    if prices == [] then None
    else
      var seen := R.Seen(pos, prices[0]);
      match R.ExitAt(seen, prices[0])
      case Some(reason) => Some(Exit(0, reason))
      case None => Later(ReplayExit(sc, R.Raise(sc, seen), prices[1..]))
  }

  predicate Positive(prices: seq<real>) {
    forall i :: 0 <= i < |prices| ==> prices[i] > 0.0
  }

  /** The same position in both engines, trailed by the same constant ATR. */
  predicate Matched(su: P.Setup, sc: R.Scenario, p: P.PaperPosition, r: R.Position, atr: real) {
    && su.ar.Exact? && su.risk == sc.risk && atr > 0.0 && sc.risk.trailingAtrMultiplier > 0.0
    && p.entryPrice == r.executionPrice && p.stopLoss == r.trailing && p.takeProfit == Some(r.initialTarget)
    && p.highestPrice == r.highest && r.trailing >= r.initialStop
    && (if sc.dynamic then r.currentAtr else r.atr) == atr
  }

  /** Where the trailing stop would sit for the highest price seen so far. */
  function Candidate(sc: R.Scenario, r: R.Position, atr: real): real {
    r.highest - sc.risk.trailingAtrMultiplier * atr
  }

  /** The stop has nothing to catch up with: it is already at its candidate, or the candidate is not a price. */
  predicate CaughtUp(sc: R.Scenario, r: R.Position, atr: real) {
    r.trailing >= Candidate(sc, r, atr) || Candidate(sc, r, atr) <= 0.0
  }

  lemma {:induction false} PositiveDistance(m: real, atr: real)
    requires m > 0.0 && atr > 0.0
    ensures m * atr > 0.0
  {
  }

  /** Raised before the exit is judged, or not: with the stop caught up, one price exits both engines or neither. */
  lemma {:induction false} SameExit(
    su: P.Setup, sc: R.Scenario, p: P.PaperPosition, r: R.Position, price: real, atr: real)
    requires Matched(su, sc, p, r, atr) && CaughtUp(sc, r, atr) && price > 0.0
    ensures P.ExitReason(P.Raise(su, p, price, atr), price) == R.ExitAt(R.Seen(r, price), price)
  {
    PositiveDistance(sc.risk.trailingAtrMultiplier, atr);
    var distance := sc.risk.trailingAtrMultiplier * atr;
    var highest := Max(r.highest, price);
    assert P.Raise(su, p, price, atr).stopLoss == Max(r.trailing, highest - distance);
    assert R.Protective(R.Seen(r, price)) == r.trailing;
    assert highest == price ==> highest - distance < price;
    assert highest == r.highest ==> r.trailing >= highest - distance || highest - distance <= 0.0;
  }

  lemma {:induction false} SameRaise(
    su: P.Setup, sc: R.Scenario, p: P.PaperPosition, r: R.Position, price: real, atr: real)
    requires Matched(su, sc, p, r, atr) && price > 0.0
    ensures
      var raised, next := P.Raise(su, p, price, atr), R.Raise(sc, R.Seen(r, price));
      Matched(su, sc, raised, next, atr) && CaughtUp(sc, next, atr)
  {
    var distance := sc.risk.trailingAtrMultiplier * atr;
    var highest := Max(r.highest, price);
    assert P.Raise(su, p, price, atr).stopLoss == Max(r.trailing, highest - distance);
    assert R.Raise(sc, R.Seen(r, price)).trailing == Max(r.trailing, highest - distance);
  }

  /** One price: both engines decide alike and stay matched and caught up. */
  lemma {:induction false} SamePrice(
    su: P.Setup, sc: R.Scenario, p: P.PaperPosition, r: R.Position, price: real, atr: real)
    requires Matched(su, sc, p, r, atr) && CaughtUp(sc, r, atr) && price > 0.0
    ensures
      var raised, seen := P.Raise(su, p, price, atr), R.Seen(r, price);
      && P.ExitReason(raised, price) == R.ExitAt(seen, price)
      && (R.ExitAt(seen, price).None? ==>
            Matched(su, sc, raised, R.Raise(sc, seen), atr) && CaughtUp(sc, R.Raise(sc, seen), atr))
  {
    SameExit(su, sc, p, r, price, atr);
    SameRaise(su, sc, p, r, price, atr);
  }

  lemma {:induction false} SamePath(
    su: P.Setup, sc: R.Scenario, p: P.PaperPosition, r: R.Position, prices: seq<real>, atr: real)
    requires Matched(su, sc, p, r, atr) && CaughtUp(sc, r, atr) && Positive(prices)
    ensures PaperExit(su, p, prices, atr) == ReplayExit(sc, r, prices)
    decreases |prices|
  {
    if prices != [] {
      SamePrice(su, sc, p, r, prices[0], atr);
      var seen := R.Seen(r, prices[0]);
      if R.ExitAt(seen, prices[0]).None? {
        SamePath(su, sc, P.Raise(su, p, prices[0], atr), R.Raise(sc, seen), prices[1..], atr);
      }
    }
  }

  /** Both engines leave every path of positive prices at the same price for the same reason. */
  ghost predicate AgreeEverywhere(su: P.Setup, sc: R.Scenario, p: P.PaperPosition, r: R.Position, atr: real) {
    forall prices :: Positive(prices) ==> PaperExit(su, p, prices, atr) == ReplayExit(sc, r, prices)
  }

  /** A price between the stop and its candidate tells the engines apart. */
  lemma {:induction false} LaggingStopDisagrees(
    su: P.Setup, sc: R.Scenario, p: P.PaperPosition, r: R.Position, atr: real)
    requires Matched(su, sc, p, r, atr) && !CaughtUp(sc, r, atr)
    ensures
      var path := [Candidate(sc, r, atr)];
      Positive(path) && PaperExit(su, p, path, atr) != ReplayExit(sc, r, path)
  {
    PositiveDistance(sc.risk.trailingAtrMultiplier, atr);
    var price := Candidate(sc, r, atr);
    var raised := P.Raise(su, p, price, atr);
    assert raised.stopLoss == price;
    assert P.ExitReason(raised, price).Some? && P.ExitReason(raised, price).value != "take_profit";
    var seen := R.Seen(r, price);
    assert price > R.Protective(seen);
    assert ReplayExit(sc, R.Raise(sc, seen), []).None?;
  }

  /** The two exit rules agree on every path of positive prices if and only if the stop starts caught up. */
  lemma {:induction false} AgreeIffCaughtUp(su: P.Setup, sc: R.Scenario, p: P.PaperPosition, r: R.Position, atr: real)
    requires Matched(su, sc, p, r, atr)
    ensures AgreeEverywhere(su, sc, p, r, atr) <==> CaughtUp(sc, r, atr)
  {
    if CaughtUp(sc, r, atr) {
      forall prices | Positive(prices)
        ensures PaperExit(su, p, prices, atr) == ReplayExit(sc, r, prices)
      {
        SamePath(su, sc, p, r, prices, atr);
      }
    } else {
      LaggingStopDisagrees(su, sc, p, r, atr);
    }
  }

  /** For a position the replay just opened with its fixed quantity this is a matter of configuration: the initial stop
      must be no wider than the trailing distance, unless that distance exceeds the whole price. */
  lemma {:induction false} FreshEntryAgreesIff(
    su: P.Setup, sc: R.Scenario, p: P.PaperPosition, d: R.Decision, atr: real, trade: R.ReplayTrade, k: nat)
    requires !sc.dynamic && atr > 0.0
    requires Matched(su, sc, p, R.OpenFixed(sc, d, atr, trade, k), atr)
    ensures
      var r := R.OpenFixed(sc, d, atr, trade, k);
      AgreeEverywhere(su, sc, p, r, atr)
      <==> sc.risk.stopAtrMultiplier <= sc.risk.trailingAtrMultiplier
           || r.executionPrice <= sc.risk.trailingAtrMultiplier * atr
  {
    hide AgreeEverywhere;
    var r := R.OpenFixed(sc, d, atr, trade, k);
    AgreeIffCaughtUp(su, sc, p, r, atr);
    FreshLevels(sc, d, atr, trade, k);
    OrderOfDistances(r.executionPrice, sc.risk.stopAtrMultiplier, sc.risk.trailingAtrMultiplier, atr);
  }

  lemma {:induction false} FreshLevels(sc: R.Scenario, d: R.Decision, atr: real, trade: R.ReplayTrade, k: nat)
    ensures
      var r := R.OpenFixed(sc, d, atr, trade, k);
      && r.trailing == r.executionPrice - sc.risk.stopAtrMultiplier * atr
      && Candidate(sc, r, atr) == r.executionPrice - sc.risk.trailingAtrMultiplier * atr
  {
  }

  lemma {:induction false} Difference(a: real, b: real, k: real)
    ensures (a - b) * k == a * k - b * k
  {
  }

  lemma {:induction false} SmallerDistance(s: real, t: real, atr: real)
    requires atr > 0.0 && s < t
    ensures s * atr < t * atr
  {
    PositiveDistance(t - s, atr);
    Difference(t, s, atr);
  }

  lemma {:induction false} OrderOfDistances(price: real, s: real, t: real, atr: real)
    requires atr > 0.0
    ensures price - s * atr >= price - t * atr <==> s <= t
  {
    if s < t {
      SmallerDistance(s, t, atr);
    } else if t < s {
      SmallerDistance(t, s, atr);
    }
  }
}
