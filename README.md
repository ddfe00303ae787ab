# Virtual energy trading: market simulation engine in Dafny

This project models the market simulation engine of a single-participant
day-ahead electricity market (`backend/simulation.py`), without its web
layer, and proves properties of the model. The engine:

- generates an hourly day-ahead (DA) price curve, either synthetic (a load
  shape with a morning and an evening hump plus bounded noise) or taken from
  an external feed that passes an acceptance test;
- generates a real-time (RT) curve from the DA curve plus bounded noise;
- accepts bids and offers for a delivery date only before 11:00 on the day
  before delivery, and at most ten per (date, hour);
- deletes orders by id before the same deadline;
- fills each order against the DA price and settles it against the RT price.

Modules, one per component:

- `MarketTypes` (market_types.dfy): days, minutes, sides, orders, requests,
  errors, `Result`/`Outcome`.
- `Deadline` (deadline.dfy): the cutoff and the guard. A date is a day
  number and an instant is a count of minutes from midnight of day 0.
- `Validation` (validation.dfy): the field constraints of an order request.
- `Prices` (prices.dfy): the synthetic DA and RT generators (loops), the DA
  handler with its external-feed acceptance test, and the hour lookup.
- `Matching` (matching.dfy): the fill rule, per-order settlement and the
  PnL loop.
- `OrderStore` (order_store.dfy): the class `OrderBook`, whose field
  `orders: map<Day, seq<Order>>` plays the orders file. Its methods create,
  delete and compute PnL. Each create and delete keeps the object invariant
  `Valid()`: every order is stored under its own date and is well formed,
  and no (date, hour) holds more than ten orders.

The injected collaborators are parameters:

- the clock is a `now: Minute` argument;
- the new order's id is an `id` argument, and its creation time is `now`;
- each random draw of the date-seeded generators is an element of a
  `noise: seq<real>` argument, in the order the generators draw them;
- the external fetch result is an `Option<seq<RawEntry>>`. `None` means the
  URL was unset, the request failed, or the payload was not a JSON list
  (backend/simulation.py:170). A `None` field means a missing key.
- a `RawEntry`'s `hour` and `price` hold the values that `int(...)` and
  `float(...)` return for the payload's fields. A JSON hour -0.5 thus
  arrives as 0 and is kept, and the text "5" arrives as 5.

Prices are `real`, so there is no IEEE float behaviour and no rounding.

The code's behaviour, which the model follows, differs from what one might expect in these ways:

- The external DA series is accepted on its length alone: 24 entries once
  out-of-range hours are dropped. Repeated hours are not rejected, so the
  series need not cover each hour once (`Prices.ExternalAcceptsRepeatedHours`).
- The PnL query always settles against the synthetic DA series, even when
  the DA handler would serve an external one.
- A delete takes away every order whose id matches, not just one. Ids are
  not checked for uniqueness at creation.
- Field validation runs before the deadline check, so an invalid request
  made after the deadline reports a validation error.

## Model

| member | source | states |
|---|---|---|
| `Deadline.SubmissionDeadline` | backend/simulation.py:106-109 | the cutoff for delivery day D falls on day D-1 at minute 660 (11:00) |
| `Deadline.RequireBeforeDeadline` | backend/simulation.py:112-118 | the guard passes iff `now` is strictly before the cutoff, and otherwise fails with DeadlinePassed |
| `Deadline.IsOpen` | backend/simulation.py:114 | a request is open iff its day (now div 1440) is before the eve of delivery, or is the eve and its minute of day (now mod 1440) is before 660 |
| `Deadline.OpenIffBeforeElevenOnEve` | backend/simulation.py:106-118 | read on the clock, a request is open iff it is made before the eve of delivery, or on the eve before 11:00; 10:59 is open and 11:00 is closed |
| `Validation.ParseSide` | backend/simulation.py:57 | only the texts "buy" and "sell" name a side |
| `Validation.CheckOrderIn` | backend/simulation.py:60-65 | a request is accepted iff 0 <= hour <= 23, price > 0, quantity > 0 and the side is "buy" or "sell"; otherwise it fails with a validation error |
| `Validation.AcceptedRequestIsWellFormed` | backend/simulation.py:235-243 | the record built from an accepted request meets the stored-order field constraints |
| `Validation.RejectsOutOfRangeFields` | backend/simulation.py:62-65 | hour 24, hour -1, price 0, quantity -1 and side "hold" are rejected; hour 23 is accepted |
| `Prices.MorningFactor` | backend/simulation.py:135 | the morning hump lies in [0, 0.5] and is positive exactly for hours 7..11 |
| `Prices.EveningFactor` | backend/simulation.py:136 | the evening hump lies in [0, 1], is positive exactly for hours 15..21 and is 1 exactly at hour 18 |
| `Prices.Shape` | backend/simulation.py:135-137 | the load shape lies in [0, 1], is 0 exactly off-peak (up to hour 6, hours 12-14, from hour 22) and is 1 exactly at hour 18 |
| `Prices.DaPrice` | backend/simulation.py:138-139 | every synthetic DA price is at least 5 |
| `Prices.DaPriceUnclamped` | backend/simulation.py:128-139 | with noise in [-3, 3] the floor never engages: the price is 45 + 30 * shape + noise, between 42 and 78 |
| `Prices.SyntheticDa` | backend/simulation.py:126-140 | the synthetic DA series has 24 entries, hours 0..23 in order, each at least 5 |
| `Prices.GenerateDayAhead` | backend/simulation.py:126-140 | the generator loop produces exactly the synthetic DA series of its draws |
| `Prices.RtPrice` | backend/simulation.py:149-150 | every synthetic RT price is at least 0 |
| `Prices.SyntheticRt` | backend/simulation.py:143-151 | the RT series has one entry per DA entry, with the same hour and in the same order, each at least 0 |
| `Prices.GenerateRealTime` | backend/simulation.py:143-151 | the RT loop produces exactly the synthetic RT series of the DA series and its draws |
| `Prices.SyntheticRtTracksDa` | backend/simulation.py:143-151 | with both draws in range, RT at each hour is DA plus the RT draw, so RT stays within 7 of DA |
| `Prices.GetRealTimePrices` | backend/simulation.py:203-208 | the RT handler serves the RT series derived from the synthetic DA series |
| `Prices.ByHour` | backend/simulation.py:278-279 | an hour is a key of the lookup iff some entry of the series has that hour |
| `Prices.ByHourIndexed` | backend/simulation.py:278-279 | in a series whose entry i is for hour i, looking up hour h gives entry h's price |
| `Prices.KeepInRange` | backend/simulation.py:172-176 | the filtered payload is no longer than the raw one and has only hours 0..23; a point is in it iff it is the decoding of some raw entry whose hour is in 0..23 |
| `Prices.KeepInRangeConcat` | backend/simulation.py:172-176 | the filter distributes over concatenation, so kept entries stay in payload order |
| `Prices.KeepInRangeKeepsAll` | backend/simulation.py:172-176 | when every hour is in range, nothing is dropped and each entry keeps its position, hour and price |
| `Prices.ParseExternal` | backend/simulation.py:169-177 | a payload decodes iff it was fetched and every element has both an hour and a price; the result is the in-range filter |
| `Prices.GetDayAheadPrices` | backend/simulation.py:190-200 | the external series is served iff it decodes to exactly 24 entries, otherwise the synthetic one; either way 24 entries with hours in 0..23 |
| `Prices.ExternalAccepted` | backend/simulation.py:194 | an accepted payload was fetched, has at least 24 elements and every element has both fields |
| `Prices.ExternalAcceptsRepeatedHours` | backend/simulation.py:194 | 24 entries all for hour 0 pass the acceptance test |
| `Matching.Fills` | backend/simulation.py:292-297 | an order at a bid equal to DA always fills; otherwise it fills iff its bid lies on its own side of DA (bid - DA has the sign of the side's direction) |
| `Matching.SignedQuantity` | backend/simulation.py:294-297 | the signed quantity is the quantity or its negation; for a positive quantity it is positive iff the order is a buy |
| `Matching.OrderPnl` | backend/simulation.py:299 | an unfilled order earns 0; an order of positive quantity gains iff it filled and RT moved away from DA in its side's direction |
| `Matching.FillRuleShape` | backend/simulation.py:292-299 | at a bid equal to DA both sides fill and a buy and a sell of the same quantity settle to opposite PnL; a filled buy also fills at any lower DA, a filled sell at any higher DA |
| `Matching.WorkedSettlements` | backend/simulation.py:292-299 | buy 1.5 at DA 60, RT 65 earns 7.5; sell 2 at DA 60, RT 55 earns 10; unfilled orders earn 0 |
| `Matching.SettlementRule` | backend/simulation.py:292-299 | a buy fills iff bid >= DA and a sell iff bid <= DA, equality filling both; an unfilled order earns 0, a filled buy qty * (RT - DA), a filled sell -qty * (RT - DA) |
| `Matching.Settle` | backend/simulation.py:284-314 | the DA price is the series price at the order's hour, or 0 when missing; the RT price likewise, defaulting to the DA price; fill and PnL follow the settlement rule at those prices; the record carries the order's id, hour, side, quantity and bid and the queried date |
| `Matching.Details` | backend/simulation.py:281-315 | one detail per order, entry i settling order i |
| `Matching.DetailsAppend` | backend/simulation.py:281-315 | appending an order to a date's list appends exactly its own detail at the end, leaving the earlier details as they were |
| `Matching.NoLossesNoNegativeTotal` | backend/simulation.py:282-300 | if no detail has negative PnL, the accumulated total is not negative |
| `Matching.SumPnlConcat` | backend/simulation.py:282-300 | the accumulated total over two runs of details is the sum of their totals |
| `Matching.TotalAfterAppend` | backend/simulation.py:283-300 | appending an order to a date's list adds exactly its own PnL to the total |
| `Matching.SumPnlOfZeros` | backend/simulation.py:299-300 | details that all have zero PnL total 0 |
| `Matching.FlatOrUnfilledTotalIsZero` | backend/simulation.py:292-300 | if every order is unfilled or settles at RT equal to DA, the total PnL is 0 |
| `Matching.SettleOrder` | backend/simulation.py:284-314 | one pass of the PnL loop body (price lookups with their defaults, the buy and sell branches) builds exactly the order's settlement record |
| `Matching.ComputePnl` | backend/simulation.py:281-317 | the loop returns one detail per stored order in stored order, and the total is the unrounded sum of their PnL, in USD |
| `OrderStore.CountHour` | backend/simulation.py:229 | an hour's count never exceeds the length of the list |
| `OrderStore.CountHourAppend` | backend/simulation.py:229-245 | appending an order raises only its own hour's count, by one |
| `OrderStore.RemoveId` | backend/simulation.py:260 | an order survives removal iff it was in the list and its id differs from the one removed |
| `OrderStore.RemoveIdConcat` | backend/simulation.py:260 | removal distributes over concatenation, so survivors keep their original relative order |
| `OrderStore.RemoveIdLength` | backend/simulation.py:260-262 | removal shortens the list iff some order has that id, and otherwise returns the list unchanged |
| `OrderStore.CountHourRemoveId` | backend/simulation.py:260-263 | removal never raises an hour's count |
| `OrderStore.OrderBook.ListOrders` | backend/simulation.py:211-216 | a date never written lists as empty; on a valid book every listed order is for that date, well formed, and at most ten share an hour |
| `OrderStore.OrderBook.CreateOrder` | backend/simulation.py:219-249 | the checks run in order: validation, then the deadline, then ten or more orders already at that hour whatever their side; each failure leaves the whole book unchanged; success appends exactly the new record to the end of that date's list and changes no other date; the per-hour limit is preserved |
| `OrderStore.OrderBook.DeleteOrder` | backend/simulation.py:252-265 | checks the deadline, then removes exactly the orders with that id from the date's list; fails with NotFound, changing nothing, iff none has the id; other dates are untouched and the invariant is preserved |
| `OrderStore.OrderBook.GetPnl` | backend/simulation.py:268-317 | settles the date's orders in stored order against the synthetic DA and RT series; on a valid book each detail uses the series price at its order's hour, so no default is ever taken |

## Left out

- The web layer is not modelled: the FastAPI app, CORS, the health endpoint, HTTP status codes and the uvicorn entry point.
- Reading and writing `orders.json` is not modelled: the book is an in-memory map that starts empty. The atomic temp-file replace is left out too.
- The HTTP request in the external DA fetch is not modelled: only the key check and the hour filter on a decoded payload are. A conversion that raises (`int(...)` or `float(...)` on a value it cannot convert) is not modelled; a conversion that succeeds is, because a `RawEntry` holds its result.
- The date-seeded `random.Random` generators are not modelled: each draw is an injected real. The bound of the uniform draws is a precondition only of the lemmas that use it.
- Random order ids and the separate clock read for `created_at` are not modelled: the id is a parameter and the creation time is the injected `now`.
- Date parsing and formatting (YYYY-MM-DD), and its invalid-date error, are not modelled: a date is a day number.
- IEEE floating point and `round(..., 2)` on prices, per-order PnL and the total are not modelled: prices are exact reals and nothing is rounded.
- Concurrent submissions are not modelled: the source has no locking and the model is sequential.
- `Prices.GenerateDayAhead`: does not model that the DA draws come from a generator seeded by the date, so determinism for a date is stated only as "the same draws give the same series".
