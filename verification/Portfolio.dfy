/** Long-only spot accounting: buys need cash, sells only reduce the position. */
module Portfolio {
  import opened Numerics

  datatype Action = Buy | Sell | Hold

  datatype Fill = Fill(
    ts: int,
    action: Action,
    price: real,
    execPrice: real,
    quantity: real,
    notional: real,
    fee: real,
    slippageCost: real)

  datatype Trade = Trade(
    entryTs: int,
    exitTs: int,
    entryPrice: real,
    exitPrice: real,
    quantity: real,
    grossPnl: real,
    fees: real,
    slippage: real,
    netPnl: real)

  datatype Book = Book(
    cash: real,
    position: real,
    avgEntry: Option<real>,
    entryTs: Option<int>,
    realizedPnl: real,
    totalFees: real,
    totalSlippage: real,
    entryFees: real,
    entrySlippage: real,
    trades: seq<Trade>)

  const CASH_SLACK: real := 0.000000001
  const DUST: real := 0.000000000001

  function OpeningBook(cash: real): Book {
    Book(cash, 0.0, None, None, 0.0, 0.0, 0.0, 0.0, 0.0, [])
  }

  function Equity(ar: Arith, b: Book, price: real): real {
    ar.Add(b.cash, ar.Mul(b.position, price))
  }

  /** The book after a buy; `None` when the cost exceeds the available cash and the source raises. */
  function ApplyBuy(ar: Arith, b: Book, f: Fill): Option<Book> {
    if f.quantity <= 0.0 then Some(b)
    else
      var totalCost := ar.Add(f.notional, f.fee);
      if totalCost > ar.Add(b.cash, CASH_SLACK) then None
      else
        var first := b.position == 0.0;
        Some(b.(
          avgEntry := if first then Some(f.execPrice) else
            Some(ar.Div(ar.Add(ar.Mul(b.avgEntry.GetOr(0.0), b.position), ar.Mul(f.execPrice, f.quantity)),
                        ar.Add(b.position, f.quantity))),
          entryTs := if first then Some(f.ts) else b.entryTs,
          position := ar.Add(b.position, f.quantity),
          cash := ar.Sub(b.cash, totalCost),
          entryFees := ar.Add(b.entryFees, f.fee),
          entrySlippage := ar.Add(b.entrySlippage, f.slippageCost),
          totalFees := ar.Add(b.totalFees, f.fee),
          totalSlippage := ar.Add(b.totalSlippage, f.slippageCost)))
  }

  /** The closed part of a position: what one sell turns into a `Trade`. */
  function SellTrade(ar: Arith, b: Book, f: Fill): Trade {
    var quantity := Min(f.quantity, b.position);
    var fraction := ar.Div(quantity, b.position);
    var scale := if f.quantity > 0.0 then ar.Div(quantity, f.quantity) else 0.0;
    var gross := ar.Mul(ar.Sub(f.execPrice, b.avgEntry.GetOr(0.0)), quantity);
    var fees := ar.Add(ar.Mul(b.entryFees, fraction), ar.Mul(f.fee, scale));
    Trade(b.entryTs.GetOr(0), f.ts, b.avgEntry.GetOr(0.0), f.execPrice, quantity, gross, fees,
          ar.Add(ar.Mul(b.entrySlippage, fraction), ar.Mul(f.slippageCost, scale)),
          ar.Sub(gross, fees))
  }

  function ApplySell(ar: Arith, b: Book, f: Fill): Book {
    if f.quantity <= 0.0 || b.position <= 0.0 then b
    else
      var quantity := Min(f.quantity, b.position);
      var fraction := ar.Div(quantity, b.position);
      var scale := ar.Div(quantity, f.quantity);
      var exitFee := ar.Mul(f.fee, scale);
      var trade := SellTrade(ar, b, f);
      var left := ar.Sub(b.position, quantity);
      var dust := left <= DUST;
      b.(cash := ar.Add(b.cash, ar.Sub(ar.Mul(f.notional, scale), exitFee)),
         position := if dust then 0.0 else left,
         avgEntry := if dust then None else b.avgEntry,
         entryTs := if dust then None else b.entryTs,
         entryFees := ar.Sub(b.entryFees, ar.Mul(b.entryFees, fraction)),
         entrySlippage := ar.Sub(b.entrySlippage, ar.Mul(b.entrySlippage, fraction)),
         realizedPnl := ar.Add(b.realizedPnl, trade.netPnl),
         totalFees := ar.Add(b.totalFees, exitFee),
         totalSlippage := ar.Add(b.totalSlippage, ar.Mul(f.slippageCost, scale)),
         trades := b.trades + [trade])
  }

  class PortfolioAccount {
    const ar: Arith
    var cash: real
    var position: real
    var avgEntry: Option<real>
    var entryTs: Option<int>
    var realizedPnl: real
    var totalFees: real
    var totalSlippage: real
    var entryFees: real
    var entrySlippage: real
    var trades: seq<Trade>

    function View(): Book
      reads this
    {
      Book(cash, position, avgEntry, entryTs, realizedPnl, totalFees, totalSlippage, entryFees, entrySlippage, trades)
    }

    constructor (ar: Arith, initialCash: real)
      ensures this.ar == ar && View() == OpeningBook(initialCash)
    {
      this.ar := ar;
      cash, position, avgEntry, entryTs := initialCash, 0.0, None, None;
      realizedPnl, totalFees, totalSlippage, entryFees, entrySlippage := 0.0, 0.0, 0.0, 0.0, 0.0;
      trades := [];
    }

    /** `raised` reports the "buy exceeds cash" error, which leaves the account as it was. */
    method Buy(f: Fill) returns (raised: bool)
      modifies this
      ensures raised <==> ApplyBuy(ar, old(View()), f).None?
      ensures View() == ApplyBuy(ar, old(View()), f).GetOr(old(View()))
    {
      if f.quantity <= 0.0 {
        return false;
      }
      var totalCost := ar.Add(f.notional, f.fee);
      if totalCost > ar.Add(cash, CASH_SLACK) {
        return true;
      }
      if position == 0.0 {
        avgEntry := Some(f.execPrice);
        entryTs := Some(f.ts);
      } else {
        var oldEntry := avgEntry.GetOr(0.0);
        avgEntry := Some(ar.Div(ar.Add(ar.Mul(oldEntry, position), ar.Mul(f.execPrice, f.quantity)),
                                ar.Add(position, f.quantity)));
      }
      position := ar.Add(position, f.quantity);
      cash := ar.Sub(cash, totalCost);
      entryFees := ar.Add(entryFees, f.fee);
      entrySlippage := ar.Add(entrySlippage, f.slippageCost);
      totalFees := ar.Add(totalFees, f.fee);
      totalSlippage := ar.Add(totalSlippage, f.slippageCost);
      return false;
    }

    method Sell(f: Fill)
      modifies this
      ensures View() == ApplySell(ar, old(View()), f)
    {
      if f.quantity <= 0.0 || position <= 0.0 {
        return;
      }
      var quantity := Min(f.quantity, position);
      var fraction := ar.Div(quantity, position);
      var allocatedFees := ar.Mul(entryFees, fraction);
      var allocatedSlippage := ar.Mul(entrySlippage, fraction);
      var scale := if f.quantity > 0.0 then ar.Div(quantity, f.quantity) else 0.0;
      var exitFee := ar.Mul(f.fee, scale);
      var exitSlippage := ar.Mul(f.slippageCost, scale);
      var gross := ar.Mul(ar.Sub(f.execPrice, avgEntry.GetOr(0.0)), quantity);
      var fees := ar.Add(allocatedFees, exitFee);
      var net := ar.Sub(gross, fees);
      cash := ar.Add(cash, ar.Sub(ar.Mul(f.notional, scale), exitFee));
      position := ar.Sub(position, quantity);
      entryFees := ar.Sub(entryFees, allocatedFees);
      entrySlippage := ar.Sub(entrySlippage, allocatedSlippage);
      realizedPnl := ar.Add(realizedPnl, net);
      totalFees := ar.Add(totalFees, exitFee);
      totalSlippage := ar.Add(totalSlippage, exitSlippage);
      trades := trades + [Trade(entryTs.GetOr(0), f.ts, avgEntry.GetOr(0.0), f.execPrice, quantity, gross, fees,
                                ar.Add(allocatedSlippage, exitSlippage), net)];
      if position <= DUST {
        position := 0.0;
        avgEntry := None;
        entryTs := None;
      }
    }
  }
}
