/** The matching engine and PnL calculator: the fill rule of a single small
    participant against the DA price, the per-order settlement against the RT
    price, and the aggregate over a date's orders. */
module Matching {
  import opened MarketTypes

  /** The fill rule: a buy fills when its bid is at or above the DA price, a
      sell when its offer is at or below it. */
  function Fills(side: Side, bid: real, daPrice: real): (filled: bool)
    ensures bid == daPrice ==> filled
    ensures filled <==> SignedQuantity(side, 1.0) * (bid - daPrice) >= 0.0
  {
    match side
    case Buy => bid >= daPrice
    case Sell => bid <= daPrice
  }

  /** A buy is a long position, a sell a short one. */
  function SignedQuantity(side: Side, quantity: real): (signed: real)
    ensures signed == quantity || signed == -quantity
    ensures quantity > 0.0 ==> (signed > 0.0 <==> side == Buy)
  {
    match side
    case Buy => quantity
    case Sell => -quantity
  }

  /** The realized PnL of one order held from DA to RT. */
  function OrderPnl(side: Side, quantity: real, bid: real, daPrice: real, rtPrice: real): (pnl: real)
    ensures !Fills(side, bid, daPrice) ==> pnl == 0.0
    ensures quantity > 0.0 ==>
      (pnl > 0.0 <==> Fills(side, bid, daPrice) && SignedQuantity(side, 1.0) * (rtPrice - daPrice) > 0.0)
  {
    if Fills(side, bid, daPrice) then SignedQuantity(side, quantity) * (rtPrice - daPrice) else 0.0
  }

  /** The settlement rule in full: a buy fills iff bid >= DA, a sell iff
      bid <= DA; an unfilled order earns 0, a filled buy qty * (RT - DA) and a
      filled sell -qty * (RT - DA). */
  lemma SettlementRule(quantity: real, bid: real, daPrice: real, rtPrice: real)
    ensures Fills(Buy, bid, daPrice) <==> bid >= daPrice
    ensures Fills(Sell, bid, daPrice) <==> bid <= daPrice
    ensures !Fills(Buy, bid, daPrice) ==> OrderPnl(Buy, quantity, bid, daPrice, rtPrice) == 0.0
    ensures !Fills(Sell, bid, daPrice) ==> OrderPnl(Sell, quantity, bid, daPrice, rtPrice) == 0.0
    ensures Fills(Buy, bid, daPrice) ==> OrderPnl(Buy, quantity, bid, daPrice, rtPrice) == quantity * (rtPrice - daPrice)
    ensures Fills(Sell, bid, daPrice) ==> OrderPnl(Sell, quantity, bid, daPrice, rtPrice) == -quantity * (rtPrice - daPrice)
  {
  }

  /** At a bid equal to the DA price both sides fill, and a buy and a sell of
      the same quantity settle to opposite PnL. A buy that fills at some DA
      price also fills at every lower one; a sell at every higher one. */
  lemma FillRuleShape(quantity: real, bid: real, daPrice: real, rtPrice: real, lowerDa: real, higherDa: real)
    requires lowerDa <= daPrice <= higherDa
    ensures bid == daPrice ==> Fills(Buy, bid, daPrice) && Fills(Sell, bid, daPrice)
    ensures bid == daPrice ==>
      OrderPnl(Buy, quantity, bid, daPrice, rtPrice) + OrderPnl(Sell, quantity, bid, daPrice, rtPrice) == 0.0
    ensures Fills(Buy, bid, daPrice) ==> Fills(Buy, bid, lowerDa)
    ensures Fills(Sell, bid, daPrice) ==> Fills(Sell, bid, higherDa)
  {
  }

  /** The worked settlements: a filled buy of 1.5 at DA 60 and RT 65 earns
      7.5, a filled sell of 2 at DA 60 and RT 55 earns 10, an unfilled order earns 0. */
  lemma WorkedSettlements()
    ensures OrderPnl(Buy, 1.5, 60.0, 60.0, 65.0) == 7.5
    ensures OrderPnl(Sell, 2.0, 60.0, 60.0, 55.0) == 10.0
    ensures OrderPnl(Buy, 1.0, 59.0, 60.0, 65.0) == 0.0
    ensures OrderPnl(Sell, 1.0, 61.0, 60.0, 55.0) == 0.0
  {
  }

  datatype PnlItem = PnlItem(
    orderId: string,
    date: Day,
    hour: int,
    side: Side,
    quantity: real,
    bidPrice: real,
    daPrice: real,
    rtPrice: real,
    filled: bool,
    pnl: real)

  datatype PnlSummary = PnlSummary(date: Day, currency: string, totalPnl: real, details: seq<PnlItem>)

  /** Settles one order of `date` against the hour lookups. A missing DA hour
      reads as 0, a missing RT hour as the DA price. */
  function Settle(date: Day, o: Order, daByHour: map<int, real>, rtByHour: map<int, real>): (item: PnlItem)
    ensures item.orderId == o.id && item.date == date && item.hour == o.hour && item.side == o.side
    ensures item.quantity == o.quantity && item.bidPrice == o.price
    ensures item.daPrice == (if o.hour in daByHour then daByHour[o.hour] else 0.0)
    ensures item.rtPrice == (if o.hour in rtByHour then rtByHour[o.hour] else item.daPrice)
    ensures item.filled == Fills(o.side, o.price, item.daPrice)
    ensures item.pnl == OrderPnl(o.side, o.quantity, o.price, item.daPrice, item.rtPrice)
  {
    var da := if o.hour in daByHour then daByHour[o.hour] else 0.0;
    var rt := if o.hour in rtByHour then rtByHour[o.hour] else da;
    var filled := Fills(o.side, o.price, da);
    PnlItem(o.id, date, o.hour, o.side, o.quantity, o.price, da, rt, filled,
            OrderPnl(o.side, o.quantity, o.price, da, rt))
  }

  /** One detail per order, in the orders' own order. */
  function Details(date: Day, orders: seq<Order>, daByHour: map<int, real>, rtByHour: map<int, real>)
    : (items: seq<PnlItem>)
    ensures |items| == |orders|
    ensures forall i :: 0 <= i < |orders| ==> items[i] == Settle(date, orders[i], daByHour, rtByHour)
  {
    seq(|orders|, i requires 0 <= i < |orders| => Settle(date, orders[i], daByHour, rtByHour))
  }

  /** No detail records a loss. */
  predicate NoLosses(items: seq<PnlItem>)
  {
    forall i :: 0 <= i < |items| ==> items[i].pnl >= 0.0
  }

  /** The unrounded total, accumulated front to back. */
  function SumPnl(items: seq<PnlItem>): real
  {
    if items == [] then 0.0 else SumPnl(items[..|items| - 1]) + items[|items| - 1].pnl
  }

  /** A day on which no order lost money cannot show a negative total. */
  lemma {:induction false} NoLossesNoNegativeTotal(items: seq<PnlItem>)
    requires NoLosses(items)
    ensures SumPnl(items) >= 0.0
  {
    if items != [] {
      NoLossesNoNegativeTotal(items[..|items| - 1]);
    }
  }

  lemma {:induction false} SumPnlConcat(a: seq<PnlItem>, b: seq<PnlItem>)
    ensures SumPnl(a + b) == SumPnl(a) + SumPnl(b)
  {
    if b != [] {
      var b' := b[..|b| - 1];
      assert (a + b)[..|a + b| - 1] == a + b';
      SumPnlConcat(a, b');
    } else {
      assert a + b == a;
    }
  }

  /** Adding an order adds exactly its own detail at the end. */
  lemma DetailsAppend(date: Day, orders: seq<Order>, o: Order, daByHour: map<int, real>, rtByHour: map<int, real>)
    ensures Details(date, orders + [o], daByHour, rtByHour)
         == Details(date, orders, daByHour, rtByHour) + [Settle(date, o, daByHour, rtByHour)]
  {
  }

  /** Adding an order adds exactly its own PnL to the total. */
  lemma TotalAfterAppend(date: Day, orders: seq<Order>, o: Order, daByHour: map<int, real>, rtByHour: map<int, real>)
    ensures SumPnl(Details(date, orders + [o], daByHour, rtByHour))
         == SumPnl(Details(date, orders, daByHour, rtByHour)) + Settle(date, o, daByHour, rtByHour).pnl
  {
    var whole := Details(date, orders + [o], daByHour, rtByHour);
    assert whole[..|whole| - 1] == Details(date, orders, daByHour, rtByHour);
  }

  /** Items whose PnL is zero contribute nothing. */
  lemma {:induction false} SumPnlOfZeros(items: seq<PnlItem>)
    requires forall i :: 0 <= i < |items| ==> items[i].pnl == 0.0
    ensures SumPnl(items) == 0.0
  {
    if items != [] {
      SumPnlOfZeros(items[..|items| - 1]);
    }
  }

  /** When RT equals DA at every hour the orders use, or no order fills, the total is 0. */
  lemma FlatOrUnfilledTotalIsZero(date: Day, orders: seq<Order>, daByHour: map<int, real>, rtByHour: map<int, real>)
    requires forall i :: 0 <= i < |orders| ==>
      var item := Settle(date, orders[i], daByHour, rtByHour);
      item.rtPrice == item.daPrice || !item.filled
    ensures SumPnl(Details(date, orders, daByHour, rtByHour)) == 0.0
  {
    SumPnlOfZeros(Details(date, orders, daByHour, rtByHour));
  }

  /** The body of the PnL loop for one order: look up both prices, apply the
      fill rule, and record the settlement. */
  method SettleOrder(date: Day, o: Order, daByHour: map<int, real>, rtByHour: map<int, real>)
    returns (item: PnlItem)
    ensures item == Settle(date, o, daByHour, rtByHour)
  {
    var da := if o.hour in daByHour then daByHour[o.hour] else 0.0;
    var rt := if o.hour in rtByHour then rtByHour[o.hour] else da;
    var filled: bool;
    var signedQty: real;
    if o.side == Buy {
      filled := o.price >= da;
      signedQty := o.quantity;
    } else {
      filled := o.price <= da;
      signedQty := -o.quantity;
    }
    assert filled == Fills(o.side, o.price, da) && signedQty == SignedQuantity(o.side, o.quantity);
    var pnl := if filled then signedQty * (rt - da) else 0.0;
    assert pnl == OrderPnl(o.side, o.quantity, o.price, da, rt);
    item := PnlItem(o.id, date, o.hour, o.side, o.quantity, o.price, da, rt, filled, pnl);
  }

  /** The PnL loop: one detail per order in order, summed into the total. */
  method ComputePnl(date: Day, orders: seq<Order>, daByHour: map<int, real>, rtByHour: map<int, real>)
    returns (summary: PnlSummary)
    ensures summary.date == date && summary.currency == "USD"
    ensures summary.details == Details(date, orders, daByHour, rtByHour)
    ensures summary.totalPnl == SumPnl(summary.details)
  {
    var details: seq<PnlItem> := [];
    var total := 0.0;
    var i := 0;
    while i < |orders|
      invariant 0 <= i <= |orders|
      invariant |details| == i
      invariant forall k :: 0 <= k < i ==> details[k] == Settle(date, orders[k], daByHour, rtByHour)
      invariant total == SumPnl(details)
    {
      var item := SettleOrder(date, orders[i], daByHour, rtByHour);
      total := total + item.pnl;
      assert (details + [item])[..i] == details;
      details := details + [item];
      i := i + 1;
    }
    summary := PnlSummary(date, "USD", total, details);
  }
}
