/** Entities shared by the market simulation engine: sides, stored orders,
    incoming order requests and the errors a request can end in. */
module MarketTypes {

  /** A delivery (trade) date, as a whole day number. */
  type Day = int

  /** A local wall-clock instant, in minutes counted from midnight of day 0. */
  type Minute = int

  const HOURS_PER_DAY: int := 24

  /** The per-(date, hour) bid limit enforced at submission time. */
  const MAX_ORDERS_PER_HOUR: nat := 10

  datatype Option<T> = None | Some(value: T)

  datatype Side = Buy | Sell

  /** One stored submission. `createdAt` is the clock reading at creation. */
  datatype Order = Order(
    id: string,
    date: Day,
    hour: int,
    side: Side,
    price: real,
    quantity: real,
    createdAt: Minute)

  /** An order request before validation; `side` is the raw text sent by the client. */
  datatype OrderRequest = OrderRequest(
    date: Day,
    hour: int,
    side: string,
    price: real,
    quantity: real)

  datatype Error = ValidationError | DeadlinePassed | HourFull | NotFound

  datatype Result<T> = Ok(value: T) | Err(error: Error)

  datatype Outcome = Pass | Fail(error: Error)

  /** The field constraints every stored order satisfies. */
  predicate WellFormed(o: Order)
  {
    0 <= o.hour < HOURS_PER_DAY && o.price > 0.0 && o.quantity > 0.0
  }
}
