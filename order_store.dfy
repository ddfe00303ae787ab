/** The order store: a date-keyed map of order lists, mutated in place by
    create and delete, read by list and by the PnL query. Every create and
    delete first passes the deadline guard; create also enforces the
    per-(date, hour) limit of ten orders. */
module OrderStore {
  import opened MarketTypes
  import opened Deadline
  import opened Validation
  import opened Prices
  import opened Matching

  // ---------- Per-list helpers ----------

  /** The number of orders for `hour` in a date's list, whatever their side. */
  function CountHour(orders: seq<Order>, hour: int): (n: nat)
    ensures n <= |orders|
  {
    if orders == [] then 0
    else (if orders[0].hour == hour then 1 else 0) + CountHour(orders[1..], hour)
  }

  lemma {:induction false} CountHourAppend(orders: seq<Order>, o: Order, hour: int)
    ensures CountHour(orders + [o], hour) == CountHour(orders, hour) + (if o.hour == hour then 1 else 0)
  {
    if orders != [] {
      assert (orders + [o])[1..] == orders[1..] + [o];
      CountHourAppend(orders[1..], o, hour);
    }
  }

  predicate HasId(orders: seq<Order>, id: string)
  {
    exists i :: 0 <= i < |orders| && orders[i].id == id
  }

  /** The list without the orders whose id is `id`, survivors in their original order. */
  function RemoveId(orders: seq<Order>, id: string): (r: seq<Order>)
    ensures forall o :: o in r <==> o in orders && o.id != id
  {
    if orders == [] then []
    else (if orders[0].id == id then [] else [orders[0]]) + RemoveId(orders[1..], id)
  }

  /** Removal distributes over concatenation, so it keeps the survivors in
      their original relative order and drops every order with that id. */
  lemma {:induction false} RemoveIdConcat(a: seq<Order>, b: seq<Order>, id: string)
    ensures RemoveId(a + b, id) == RemoveId(a, id) + RemoveId(b, id)
  {
    if a == [] {
      assert a + b == b;
    } else {
      assert (a + b)[1..] == a[1..] + b;
      RemoveIdConcat(a[1..], b, id);
    }
  }

  /** Removal shortens the list exactly when some order carries the id, and
      leaves it as it is otherwise. */
  lemma {:induction false} RemoveIdLength(orders: seq<Order>, id: string)
    ensures |RemoveId(orders, id)| <= |orders|
    ensures |RemoveId(orders, id)| == |orders| <==> !HasId(orders, id)
    ensures !HasId(orders, id) ==> RemoveId(orders, id) == orders
  {
    if orders != [] {
      RemoveIdLength(orders[1..], id);
      if HasId(orders[1..], id) {
        var i :| 0 <= i < |orders[1..]| && orders[1..][i].id == id;
        assert orders[i + 1].id == id;
      }
      if HasId(orders, id) && orders[0].id != id {
        var i :| 0 <= i < |orders| && orders[i].id == id;
        assert orders[1..][i - 1].id == id;
      }
    }
  }

  /** Removal never raises an hour's count. */
  lemma {:induction false} CountHourRemoveId(orders: seq<Order>, id: string, hour: int)
    ensures CountHour(RemoveId(orders, id), hour) <= CountHour(orders, hour)
  {
    if orders != [] {
      var head := if orders[0].id == id then [] else [orders[0]];
      assert RemoveId(orders, id) == head + RemoveId(orders[1..], id);
      CountHourRemoveId(orders[1..], id, hour);
      var rest := RemoveId(orders[1..], id);
      if head == [] {
        assert head + rest == rest;
      } else {
        assert (head + rest)[0] == orders[0];
        assert (head + rest)[1..] == rest;
      }
    }
  }

  /** What every date's list keeps: each order is for that date and well
      formed, and no hour holds more than ten orders. */
  ghost predicate DayInvariant(date: Day, orders: seq<Order>)
  {
    && (forall o :: o in orders ==> o.date == date && WellFormed(o))
    && (forall h :: CountHour(orders, h) <= MAX_ORDERS_PER_HOUR)
  }

  class OrderBook {
    var orders: map<Day, seq<Order>>

    ghost predicate Valid()
      reads this
    {
      forall d :: d in orders ==> DayInvariant(d, orders[d])
    }

    constructor ()
      ensures Valid() && orders == map[]
    {
      orders := map[];
    }

    /** The date's orders in submission order; a date never written reads as empty. */
    function ListOrders(date: Day): (r: seq<Order>)
      reads this
      ensures date !in orders ==> r == []
      ensures Valid() ==> DayInvariant(date, r)
    {
      if date in orders then orders[date] else []
    }

    /** Validates the request, checks the deadline and the hour's limit, then
        appends the new order to the date's list. */
    method CreateOrder(req: OrderRequest, now: Minute, id: string) returns (res: Result<Order>)
      modifies this
      ensures res == Err(ValidationError) <==> CheckOrderIn(req).Err?
      ensures res == Err(DeadlinePassed) <==> CheckOrderIn(req).Ok? && !IsOpen(req.date, now)
      ensures res == Err(HourFull) <==>
        CheckOrderIn(req).Ok? && IsOpen(req.date, now)
        && CountHour(old(ListOrders(req.date)), req.hour) >= MAX_ORDERS_PER_HOUR
      ensures res.Ok? <==>
        CheckOrderIn(req).Ok? && IsOpen(req.date, now)
        && CountHour(old(ListOrders(req.date)), req.hour) < MAX_ORDERS_PER_HOUR
      ensures res.Err? ==> orders == old(orders)
      ensures res.Ok? ==>
        && res.value == Order(id, req.date, req.hour, CheckOrderIn(req).value, req.price, req.quantity, now)
        && orders == old(orders)[req.date := old(ListOrders(req.date)) + [res.value]]
      ensures old(Valid()) ==> Valid()
    {
      var checked := CheckOrderIn(req);
      if checked.Err? {
        return Err(ValidationError);
      }
      var guard := RequireBeforeDeadline(req.date, now);
      if guard.Fail? {
        return Err(guard.error);
      }
      var dayOrders := ListOrders(req.date);
      var countThisHour := CountHour(dayOrders, req.hour);
      if countThisHour >= MAX_ORDERS_PER_HOUR {
        return Err(HourFull);
      }
      var dayOrders0 := dayOrders;
      var record := Order(id, req.date, req.hour, checked.value, req.price, req.quantity, now);
      dayOrders := dayOrders + [record];
      ghost var wasValid := Valid();
      orders := orders[req.date := dayOrders];
      if wasValid {
        forall h ensures CountHour(dayOrders, h) <= MAX_ORDERS_PER_HOUR {
          CountHourAppend(dayOrders0, record, h);
        }
        AcceptedRequestIsWellFormed(req, id, now);
        assert DayInvariant(req.date, dayOrders);
      }
      res := Ok(record);
    }

    /** Checks the deadline, then drops every order of `date` whose id is
        `orderId`; fails with not-found, changing nothing, when none has it. */
    method DeleteOrder(orderId: string, date: Day, now: Minute) returns (res: Outcome)
      modifies this
      ensures res == Fail(DeadlinePassed) <==> !IsOpen(date, now)
      ensures res == Fail(NotFound) <==> IsOpen(date, now) && !HasId(old(ListOrders(date)), orderId)
      ensures res == Pass <==> IsOpen(date, now) && HasId(old(ListOrders(date)), orderId)
      ensures res.Fail? ==> orders == old(orders)
      ensures res.Pass? ==> orders == old(orders)[date := RemoveId(old(ListOrders(date)), orderId)]
      ensures old(Valid()) ==> Valid()
    {
      var guard := RequireBeforeDeadline(date, now);
      if guard.Fail? {
        return guard;
      }
      var dayOrders := ListOrders(date);
      var newOrders := RemoveId(dayOrders, orderId);
      RemoveIdLength(dayOrders, orderId);
      if |newOrders| == |dayOrders| {
        return Fail(NotFound);
      }
      ghost var wasValid := Valid();
      orders := orders[date := newOrders];
      if wasValid {
        forall h ensures CountHour(newOrders, h) <= MAX_ORDERS_PER_HOUR {
          CountHourRemoveId(dayOrders, orderId, h);
        }
        assert DayInvariant(date, newOrders);
      }
      res := Pass;
    }

    /** The PnL of the date's orders against the synthetic DA and RT series. */
    method GetPnl(date: Day, daNoise: seq<real>, rtNoise: seq<real>) returns (summary: PnlSummary)
      requires |daNoise| == HOURS_PER_DAY && |rtNoise| == HOURS_PER_DAY
      ensures summary.date == date && summary.currency == "USD"
      ensures summary.details ==
        Details(date, ListOrders(date), ByHour(SyntheticDa(daNoise)),
                ByHour(SyntheticRt(SyntheticDa(daNoise), rtNoise)))
      ensures summary.totalPnl == SumPnl(summary.details)
      ensures Valid() ==> forall i :: 0 <= i < |summary.details| ==>
        var h := ListOrders(date)[i].hour;
        && summary.details[i].daPrice == DaPrice(h, daNoise[h])
        && summary.details[i].rtPrice == RtPrice(DaPrice(h, daNoise[h]), rtNoise[h])
    {
      var dayOrders := ListOrders(date);
      var daSeries := GenerateDayAhead(daNoise);
      var rtSeries := GenerateRealTime(daSeries, rtNoise);
      var daByHour := ByHour(daSeries);
      var rtByHour := ByHour(rtSeries);
      summary := ComputePnl(date, dayOrders, daByHour, rtByHour);
      ByHourIndexed(daSeries);
      ByHourIndexed(rtSeries);
    }
  }

  /** A client of the contracts: for delivery day 10, a buy at 10:59 on day 9
      is stored, the same request at 11:00 is refused, and deleting an id that
      was never stored is refused without changing the book. */
  method DeadlineScenario()
  {
    var book := new OrderBook();
    var req := OrderRequest(10, 18, "buy", 60.0, 1.5);
    OpenIffBeforeElevenOnEve(10, 9, 659);
    OpenIffBeforeElevenOnEve(10, 9, 660);
    var first := book.CreateOrder(req, At(9, 659), "a");
    assert first.Ok? && book.ListOrders(10) == [first.value];
    var late := book.CreateOrder(req, At(9, 660), "b");
    assert late == Err(DeadlinePassed);
    var before := book.orders;
    var gone := book.DeleteOrder("c", 10, At(9, 0));
    assert book.ListOrders(10)[0].id == "a";
    assert gone == Fail(NotFound) && book.orders == before;
  }
}
