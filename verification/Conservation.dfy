/** Money conservation: what any sequence of fills does to an account, in exact arithmetic. */
module Conservation {
  import opened Numerics
  import opened Portfolio

  /** A fill as both fill factories build it: the notional is quantity times execution price, and nothing is bought for
      free. A sell may be at any price. */
  predicate Consistent(f: Fill) {
    f.notional == f.quantity * f.execPrice && (f.action.Buy? ==> f.execPrice > 0.0)
  }

  function ApplyFill(b: Book, f: Fill): Option<Book> {
    match f.action
    case Buy => ApplyBuy(Exact, b, f)
    case Sell => Some(ApplySell(Exact, b, f))
    case Hold => Some(b)
  }

  /** The account after the fills in order; `None` as soon as one of them raises. */
  function ApplyFills(b: Book, fs: seq<Fill>): Option<Book> {
    if fs == [] then Some(b)
    else
      match ApplyFills(b, fs[..|fs| - 1])
      case None => None
      case Some(mid) => ApplyFill(mid, fs[|fs| - 1])
  }

  /** Money put in or still tied up: cash, the position at cost, and entry fees not yet charged to a trade. */
  function Invested(b: Book): real {
    b.cash + b.position * b.avgEntry.GetOr(0.0) + b.entryFees
  }

  function NetTotal(ts: seq<Trade>): real {
    if ts == [] then 0.0 else NetTotal(ts[..|ts| - 1]) + ts[|ts| - 1].netPnl
  }

  function FeeTotal(ts: seq<Trade>): real {
    if ts == [] then 0.0 else FeeTotal(ts[..|ts| - 1]) + ts[|ts| - 1].fees
  }

  function SlippageTotal(ts: seq<Trade>): real {
    if ts == [] then 0.0 else SlippageTotal(ts[..|ts| - 1]) + ts[|ts| - 1].slippage
  }

  /** Quantity a sell leaves behind, before the account rounds tiny remainders to zero. */
  function Remainder(b: Book, f: Fill): real {
    if f.action.Sell? && f.quantity > 0.0 && b.position > 0.0 then b.position - Min(f.quantity, b.position) else 0.0
  }

  /** Cost of the remainder the account throws away, if it does. */
  function Dropped(b: Book, f: Fill): real {
    if Remainder(b, f) <= DUST then Remainder(b, f) * b.avgEntry.GetOr(0.0) else 0.0
  }

  function DroppedTotal(b: Book, fs: seq<Fill>): real {
    if fs == [] then 0.0
    else
      var mid := ApplyFills(b, fs[..|fs| - 1]);
      DroppedTotal(b, fs[..|fs| - 1]) + (if mid.Some? then Dropped(mid.value, fs[|fs| - 1]) else 0.0)
  }

  /** No sell leaves a positive remainder at or below the dust threshold. */
  predicate LeavesNoDust(b: Book, fs: seq<Fill>) {
    fs == [] ||
    (&& LeavesNoDust(b, fs[..|fs| - 1])
     && var mid := ApplyFills(b, fs[..|fs| - 1]);
        mid.Some? ==> var left := Remainder(mid.value, fs[|fs| - 1]); left == 0.0 || left > DUST)
  }

  /** Reachable accounts: never short, and an average entry price exactly while there is a position. */
  predicate Sound(b: Book) {
    && b.position >= 0.0
    && (b.position > 0.0 <==> b.avgEntry.Some?)
    && (b.avgEntry.Some? <==> b.entryTs.Some?)
    && (b.avgEntry.Some? ==> b.avgEntry.value > 0.0)
  }

  /** The ledger identities every reachable account satisfies, up to the dust dropped so far. */
  predicate Conserved(initial: real, dropped: real, b: Book) {
    && Invested(b) + dropped == initial + b.realizedPnl
    && b.realizedPnl == NetTotal(b.trades)
    && b.totalFees == FeeTotal(b.trades) + b.entryFees
    && b.totalSlippage == SlippageTotal(b.trades) + b.entrySlippage
  }

  lemma {:induction false} TotalsAppend(ts: seq<Trade>, t: Trade)
    ensures NetTotal(ts + [t]) == NetTotal(ts) + t.netPnl
    ensures FeeTotal(ts + [t]) == FeeTotal(ts) + t.fees
    ensures SlippageTotal(ts + [t]) == SlippageTotal(ts) + t.slippage
  {
    assert (ts + [t])[..|ts|] == ts;
  }

  lemma {:induction false} AverageCost(prior: real, held: real, price: real, bought: real)
    requires held >= 0.0 && bought > 0.0 && prior >= 0.0 && price > 0.0
    ensures (held + bought) * ((prior * held + price * bought) / (held + bought)) == prior * held + price * bought
    ensures (prior * held + price * bought) / (held + bought) > 0.0
  {
    var cost := prior * held + price * bought;
    assert cost > 0.0 by {
      assert prior * held >= 0.0;
      assert price * bought > 0.0;
    }
    var total := held + bought;
    assert total * (cost / total) == cost;
  }

  lemma {:induction false} BuyConserves(initial: real, dropped: real, b: Book, f: Fill, after: Book)
    requires Sound(b) && Conserved(initial, dropped, b) && Consistent(f) && f.action.Buy?
    requires ApplyBuy(Exact, b, f) == Some(after)
    ensures Sound(after) && Conserved(initial, dropped, after)
  {
    if f.quantity > 0.0 {
      var prior := b.avgEntry.GetOr(0.0);
      if b.position == 0.0 {
        assert after.position * f.execPrice == f.notional;
      } else {
        AverageCost(prior, b.position, f.execPrice, f.quantity);
        assert after.position * after.avgEntry.value == prior * b.position + f.notional;
        assert prior * b.position == b.position * prior;
      }
    }
  }

  /** The proceeds of a sell in terms of the quantity actually sold. */
  lemma {:induction false} Proceeds(f: Fill, sold: real)
    requires f.quantity > 0.0 && Consistent(f)
    ensures f.notional * (sold / f.quantity) == sold * f.execPrice
  {
    var scale := sold / f.quantity;
    assert scale * f.quantity == sold;
    assert f.notional * scale == f.execPrice * (scale * f.quantity);
  }

  lemma {:induction false} SellKeepsSound(b: Book, f: Fill)
    requires Sound(b) && f.action.Sell?
    ensures Sound(ApplySell(Exact, b, f))
  {
  }

  /** The new fields of a sell that takes place, with the quantity sold and the fraction written out. */
  lemma {:induction false} SellFields(b: Book, f: Fill)
    requires Sound(b) && f.action.Sell? && f.quantity > 0.0 && b.position > 0.0
    ensures
      var after, trade := ApplySell(Exact, b, f), SellTrade(Exact, b, f);
      var sold := Min(f.quantity, b.position);
      var charged := b.entryFees * (sold / b.position);
      var exitFee := f.fee * (sold / f.quantity);
      && after.cash == b.cash + (f.notional * (sold / f.quantity) - exitFee)
      && after.entryFees == b.entryFees - charged
      && after.trades == b.trades + [trade]
      && trade.fees == charged + exitFee
      && trade.netPnl == (f.execPrice - b.avgEntry.value) * sold - trade.fees
      && after.realizedPnl == b.realizedPnl + trade.netPnl
      && after.totalFees == b.totalFees + exitFee
      && after.totalSlippage - after.entrySlippage == b.totalSlippage - b.entrySlippage + trade.slippage
  {
  }

  /** Cost of what a sell leaves, kept or dropped, in terms of what it sold. */
  lemma {:induction false} SellLeaves(b: Book, f: Fill)
    requires Sound(b) && f.action.Sell? && f.quantity > 0.0 && b.position > 0.0
    ensures
      var after, sold, avg := ApplySell(Exact, b, f), Min(f.quantity, b.position), b.avgEntry.value;
      after.position * after.avgEntry.GetOr(0.0) + Dropped(b, f) == b.position * avg - sold * avg
  {
    var after, sold, avg := ApplySell(Exact, b, f), Min(f.quantity, b.position), b.avgEntry.value;
    var left := b.position - sold;
    assert left * avg == b.position * avg - sold * avg;
    assert after.position * after.avgEntry.GetOr(0.0) + Dropped(b, f) == left * avg;
  }

  lemma {:induction false} GrossOfSale(exec: real, avg: real, sold: real)
    ensures (exec - avg) * sold == sold * exec - sold * avg
  {
  }

  lemma {:induction false} SellKeepsMoney(b: Book, f: Fill)
    requires Sound(b) && Consistent(f) && f.action.Sell? && f.quantity > 0.0 && b.position > 0.0
    ensures
      Invested(ApplySell(Exact, b, f)) + Dropped(b, f) == Invested(b) + SellTrade(Exact, b, f).netPnl
  {
    var sold := Min(f.quantity, b.position);
    SellFields(b, f);
    SellLeaves(b, f);
    Proceeds(f, sold);
    GrossOfSale(f.execPrice, b.avgEntry.value, sold);
  }

  lemma {:induction false} SellConserves(initial: real, dropped: real, b: Book, f: Fill)
    requires Sound(b) && Conserved(initial, dropped, b) && Consistent(f) && f.action.Sell?
    ensures Sound(ApplySell(Exact, b, f)) && Conserved(initial, dropped + Dropped(b, f), ApplySell(Exact, b, f))
  {
    SellKeepsSound(b, f);
    if f.quantity > 0.0 && b.position > 0.0 {
      SellFields(b, f);
      SellKeepsMoney(b, f);
      TotalsAppend(b.trades, SellTrade(Exact, b, f));
    }
  }

  /** Whatever the fills, no money appears or disappears: cash, cost of the position and pending fees equal the
      initial cash plus realized profit, short of the dust thrown away; profit and fees are those of the trades. */
  lemma {:induction false} MoneyConserved(initial: real, fs: seq<Fill>)
    requires forall f :: f in fs ==> Consistent(f)
    requires ApplyFills(OpeningBook(initial), fs).Some?
    ensures
      var b := ApplyFills(OpeningBook(initial), fs).value;
      Sound(b) && Conserved(initial, DroppedTotal(OpeningBook(initial), fs), b)
  {
    if fs != [] {
      var before := fs[..|fs| - 1];
      var last := fs[|fs| - 1];
      MoneyConserved(initial, before);
      var mid := ApplyFills(OpeningBook(initial), before).value;
      var dropped := DroppedTotal(OpeningBook(initial), before);
      match last.action {
        case Buy => BuyConserves(initial, dropped, mid, last, ApplyFill(mid, last).value);
        case Sell => SellConserves(initial, dropped, mid, last);
        case Hold =>
      }
    }
  }

  /** What a sell drops costs at most the dust quantity at the average entry price, and nothing exactly when it leaves
      no dust. */
  lemma {:induction false} DropBounded(b: Book, f: Fill)
    requires Sound(b)
    ensures 0.0 <= Dropped(b, f) <= DUST * b.avgEntry.GetOr(0.0)
    ensures Dropped(b, f) == 0.0 <==> Remainder(b, f) == 0.0 || Remainder(b, f) > DUST
  {
    var left, avg := Remainder(b, f), b.avgEntry.GetOr(0.0);
    AtMostDust(avg, left);
    AtMostDust(avg, DUST);
    assert Dropped(b, f) == if left <= DUST then left * avg else 0.0;
    if left > 0.0 {
      PositiveCost(left, avg);
    }
  }

  lemma {:induction false} PositiveCost(left: real, avg: real)
    requires left > 0.0 && avg > 0.0
    ensures left * avg > 0.0
  {
  }

  /** Conservation is exact if and only if no sell leaves dust behind. */
  lemma {:induction false} ExactlyWhenNoDust(initial: real, fs: seq<Fill>)
    requires forall f :: f in fs ==> Consistent(f)
    requires ApplyFills(OpeningBook(initial), fs).Some?
    ensures DroppedTotal(OpeningBook(initial), fs) >= 0.0
    ensures
      var b := ApplyFills(OpeningBook(initial), fs).value;
      Invested(b) == initial + NetTotal(b.trades) <==> LeavesNoDust(OpeningBook(initial), fs)
  {
    MoneyConserved(initial, fs);
    DroppedIffDust(initial, fs);
  }

  lemma {:induction false} DroppedIffDust(initial: real, fs: seq<Fill>)
    requires forall f :: f in fs ==> Consistent(f)
    requires ApplyFills(OpeningBook(initial), fs).Some?
    ensures DroppedTotal(OpeningBook(initial), fs) >= 0.0
    ensures DroppedTotal(OpeningBook(initial), fs) == 0.0 <==> LeavesNoDust(OpeningBook(initial), fs)
  {
    if fs != [] {
      var before := fs[..|fs| - 1];
      DroppedIffDust(initial, before);
      MoneyConserved(initial, before);
      DropBounded(ApplyFills(OpeningBook(initial), before).value, fs[|fs| - 1]);
    }
  }

  // ---- flat accounts

  predicate Closes(b: Book, f: Fill) {
    f.action.Sell? && f.quantity > 0.0 && b.position > 0.0
  }

  function FeePerUnit(b: Book): real
    requires b.position > 0.0
  {
    b.entryFees / b.position
  }

  /** Entry fees a sell leaves pending on what it does not sell: the fee per unit times the remainder. */
  function Stranded(b: Book, f: Fill): real
    requires b.position > 0.0
  {
    FeePerUnit(b) * Remainder(b, f)
  }

  /** Entry fees still pending on a flat account: what its last sell stranded on the dust it dropped. */
  function LeftoverFees(b: Book, fs: seq<Fill>): real {
    if fs == [] then 0.0
    else
      var mid := ApplyFills(b, fs[..|fs| - 1]);
      if mid.Some? && Closes(mid.value, fs[|fs| - 1]) then Stranded(mid.value, fs[|fs| - 1])
      else LeftoverFees(b, fs[..|fs| - 1])
  }

  lemma {:induction false} PerUnit(fees: real, held: real, sold: real)
    requires held > 0.0
    ensures fees - fees * (sold / held) == fees / held * (held - sold)
  {
    var unit, share := fees / held, sold / held;
    assert unit * held == fees;
    assert share * held == sold;
    assert fees * share == unit * (share * held);
    assert unit * (held - sold) == unit * held - unit * sold;
  }

  lemma {:induction false} SellStrands(b: Book, f: Fill)
    requires Sound(b) && Closes(b, f)
    ensures ApplySell(Exact, b, f).entryFees == Stranded(b, f)
    ensures ApplySell(Exact, b, f).position == 0.0 <==> Remainder(b, f) <= DUST
  {
    SellFields(b, f);
    PerUnit(b.entryFees, b.position, Min(f.quantity, b.position));
  }

  lemma {:induction false} FeePerUnitNotNegative(b: Book)
    requires b.position > 0.0 && b.entryFees >= 0.0
    ensures FeePerUnit(b) >= 0.0
  {
  }

  /** What a closing sell strands is the pending fee per unit times at most the dust quantity. */
  lemma {:induction false} StrandedBounded(b: Book, f: Fill)
    requires Sound(b) && Closes(b, f) && b.entryFees >= 0.0
    ensures 0.0 <= Stranded(b, f)
    ensures Remainder(b, f) <= DUST ==> Stranded(b, f) <= FeePerUnit(b) * DUST
  {
    FeePerUnitNotNegative(b);
    StrandedScales(FeePerUnit(b), Remainder(b, f), Stranded(b, f));
  }

  lemma {:induction false} StrandedScales(unit: real, left: real, stranded: real)
    requires unit >= 0.0 && left >= 0.0 && stranded == unit * left
    ensures 0.0 <= stranded && (left <= DUST ==> stranded <= unit * DUST)
  {
    AtMostDust(unit, left);
  }

  lemma {:induction false} AtMostDust(k: real, left: real)
    requires k >= 0.0 && left >= 0.0
    ensures 0.0 <= k * left && 0.0 <= left * k
    ensures left <= DUST ==> k * left <= k * DUST && left * k <= DUST * k
  {
    ScaledOrder(k, 0.0, left);
    if left <= DUST {
      ScaledOrder(k, left, DUST);
    }
  }

  lemma {:induction false} ScaledOrder(k: real, x: real, y: real)
    requires k >= 0.0 && x <= y
    ensures k * x <= k * y && x * k <= y * k
  {
    var gap := y - x;
    assert k * gap >= 0.0;
    assert k * gap == k * y - k * x;
  }

  lemma {:induction false} FlatFees(initial: real, fs: seq<Fill>)
    requires forall f :: f in fs ==> Consistent(f)
    requires ApplyFills(OpeningBook(initial), fs).Some?
    ensures
      var b := ApplyFills(OpeningBook(initial), fs).value;
      b.position == 0.0 ==>
        && b.entryFees == LeftoverFees(OpeningBook(initial), fs)
        && (LeavesNoDust(OpeningBook(initial), fs) ==> b.entryFees == 0.0)
  {
    if fs != [] {
      var before, last := fs[..|fs| - 1], fs[|fs| - 1];
      FlatFees(initial, before);
      MoneyConserved(initial, before);
      var mid := ApplyFills(OpeningBook(initial), before).value;
      if Closes(mid, last) {
        SellStrands(mid, last);
        assert Remainder(mid, last) == 0.0 ==> Stranded(mid, last) == 0.0;
      }
    }
  }

  /** A flat account is worth its initial cash plus the net of its trades at any price, less the cost of the dust it
      dropped and the entry fees its last sell stranded; without dust it is exactly that. */
  lemma {:induction false} FlatEquity(initial: real, fs: seq<Fill>, price: real)
    requires forall f :: f in fs ==> Consistent(f)
    requires ApplyFills(OpeningBook(initial), fs).Some?
    requires ApplyFills(OpeningBook(initial), fs).value.position == 0.0
    ensures
      var b := ApplyFills(OpeningBook(initial), fs).value;
      Equity(Exact, b, price)
      == initial + NetTotal(b.trades) - DroppedTotal(OpeningBook(initial), fs) - LeftoverFees(OpeningBook(initial), fs)
    ensures LeavesNoDust(OpeningBook(initial), fs) ==>
      var b := ApplyFills(OpeningBook(initial), fs).value;
      b.entryFees == 0.0 && Equity(Exact, b, price) == initial + NetTotal(b.trades)
  {
    MoneyConserved(initial, fs);
    DroppedIffDust(initial, fs);
    FlatFees(initial, fs);
  }

  lemma {:induction false} FeesNotNegative(initial: real, fs: seq<Fill>)
    requires forall f :: f in fs ==> Consistent(f) && f.fee >= 0.0
    requires ApplyFills(OpeningBook(initial), fs).Some?
    ensures ApplyFills(OpeningBook(initial), fs).value.entryFees >= 0.0
  {
    if fs != [] {
      var before, last := fs[..|fs| - 1], fs[|fs| - 1];
      FeesNotNegative(initial, before);
      MoneyConserved(initial, before);
      var mid := ApplyFills(OpeningBook(initial), before).value;
      assert last in fs;
      if Closes(mid, last) {
        SellStrands(mid, last);
        StrandedBounded(mid, last);
      }
    }
  }

  /** With fees that are not negative, flat equity is initial cash plus nets if and only if no sell leaves dust. */
  lemma {:induction false} FlatEquityIffNoDust(initial: real, fs: seq<Fill>, price: real)
    requires forall f :: f in fs ==> Consistent(f) && f.fee >= 0.0
    requires ApplyFills(OpeningBook(initial), fs).Some?
    requires ApplyFills(OpeningBook(initial), fs).value.position == 0.0
    ensures
      var b := ApplyFills(OpeningBook(initial), fs).value;
      Equity(Exact, b, price) == initial + NetTotal(b.trades) <==> LeavesNoDust(OpeningBook(initial), fs)
  {
    FlatEquity(initial, fs, price);
    FlatFees(initial, fs);
    FeesNotNegative(initial, fs);
    DroppedIffDust(initial, fs);
  }
}
