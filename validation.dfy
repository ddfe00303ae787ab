/** Field validation of an incoming order request (the `OrderIn` model):
    hour in 0..23, price and quantity strictly positive, side "buy" or "sell". */
module Validation {
  import opened MarketTypes

  function ParseSide(text: string): (r: Option<Side>)
    ensures r == Some(Buy) <==> text == "buy"
    ensures r == Some(Sell) <==> text == "sell"
  {
    if text == "buy" then Some(Buy)
    else if text == "sell" then Some(Sell)
    else None
  }

  /** Accepts the request and yields its side, or rejects it with a validation error. */
  function CheckOrderIn(req: OrderRequest): (r: Result<Side>)
    ensures r.Ok? <==> 0 <= req.hour <= 23 && req.price > 0.0 && req.quantity > 0.0
                       && (req.side == "buy" || req.side == "sell")
    ensures r.Ok? ==> (r.value == Buy <==> req.side == "buy")
    ensures r.Err? ==> r.error == ValidationError
  {
    if !(0 <= req.hour <= 23) || !(req.price > 0.0) || !(req.quantity > 0.0) then
      Err(ValidationError)
    else
      match ParseSide(req.side)
      case Some(side) => Ok(side)
      case None => Err(ValidationError)
  }

  /** The order built from an accepted request satisfies the store's field constraints. */
  lemma AcceptedRequestIsWellFormed(req: OrderRequest, id: string, now: Minute)
    requires CheckOrderIn(req).Ok?
    ensures WellFormed(Order(id, req.date, req.hour, CheckOrderIn(req).value, req.price, req.quantity, now))
  {
  }

  /** The boundary rejections: hour 24, hour -1, price 0, quantity -1 and side "hold". */
  lemma RejectsOutOfRangeFields(date: Day)
    ensures CheckOrderIn(OrderRequest(date, 24, "buy", 60.0, 1.0)) == Err(ValidationError)
    ensures CheckOrderIn(OrderRequest(date, -1, "buy", 60.0, 1.0)) == Err(ValidationError)
    ensures CheckOrderIn(OrderRequest(date, 5, "buy", 0.0, 1.0)) == Err(ValidationError)
    ensures CheckOrderIn(OrderRequest(date, 5, "sell", 60.0, -1.0)) == Err(ValidationError)
    ensures CheckOrderIn(OrderRequest(date, 5, "hold", 60.0, 1.0)) == Err(ValidationError)
    ensures CheckOrderIn(OrderRequest(date, 23, "sell", 60.0, 1.0)) == Ok(Sell)
  {
  }
}
