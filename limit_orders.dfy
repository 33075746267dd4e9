/** LimitOrderBot.place_limit_order: validate, compare with the market price, send one LIMIT order. */
module LimitOrders {
  import opened Wrappers
  import opened Errors
  import opened Orders
  import opened Exchange
  import opened Validator
  import opened BaseBot

  /** The request a limit order sends, or the first failing check among symbol, side, quantity, price, time-in-force. */
  function LimitRequest(symbol: string, side: string, quantity: real, price: real,
                        timeInForce: string := DEFAULT_TIME_IN_FORCE): (r: Result<Request, Error>)
    ensures r.Ok? <==>
              && ValidateSymbol(symbol).Ok? && ValidateSide(side).Ok? && ValidateQuantity(quantity).Ok?
              && ValidatePrice(price).Ok? && ValidateTimeInForce(timeInForce).Ok?
    ensures ValidateSymbol(symbol).Err? ==> r == Err(ValidateSymbol(symbol).error)
    ensures ValidateSymbol(symbol).Ok? && ValidateSide(side).Err? ==> r == Err(ValidateSide(side).error)
    ensures ValidateSymbol(symbol).Ok? && ValidateSide(side).Ok? && ValidateQuantity(quantity).Err? ==>
              r == Err(ValidateQuantity(quantity).error)
    ensures (ValidateSymbol(symbol).Ok? && ValidateSide(side).Ok? && ValidateQuantity(quantity).Ok?
             && ValidatePrice(price).Err?) ==> r == Err(ValidatePrice(price).error)
    ensures (ValidateSymbol(symbol).Ok? && ValidateSide(side).Ok? && ValidateQuantity(quantity).Ok?
             && ValidatePrice(price).Ok? && ValidateTimeInForce(timeInForce).Err?) ==>
              r == Err(ValidateTimeInForce(timeInForce).error)
    ensures r.Ok? ==>
              && r.value == Request(ValidateSymbol(symbol).value, ValidateSide(side).value, Limit, quantity,
                                    Some(price), None, Some(ValidateTimeInForce(timeInForce).value))
              && IsSymbol(r.value.symbol) && 0.0 < price && 0.0 < quantity
  {
    var s :- ValidateSymbol(symbol);
    var d :- ValidateSide(side);
    var q :- ValidateQuantity(quantity);
    var p :- ValidatePrice(price);
    var t :- ValidateTimeInForce(timeInForce);
    Ok(Request(s, d, Limit, q, Some(p), None, Some(t)))
  }

  /** The omitted time-in-force is GTC. */
  lemma DefaultIsGoodTillCancel(symbol: string, side: string, quantity: real, price: real)
    requires LimitRequest(symbol, side, quantity, price).Ok?
    ensures LimitRequest(symbol, side, quantity, price).value.timeInForce == Some(GTC)
  {
    TimeInForceRoundTrip(GTC);
  }

  /** (price - current) / current * 100; a zero current price raises ZeroDivisionError. */
  function PriceDifferencePercent(price: real, current: real): (r: Result<real, Error>)
    ensures r.Err? <==> current == 0.0
    ensures r.Err? ==> r.error == DivisionByZero
    ensures r.Ok? ==> r.value * current == (price - current) * 100.0
  {
    if current == 0.0 then Err(DivisionByZero) else Ok((price - current) / current * 100.0)
  }

  /** Above a positive market price the difference is positive, at it zero, below it negative. */
  lemma PriceDifferenceSign(price: real, current: real)
    requires 0.0 < current
    ensures var d := PriceDifferencePercent(price, current).value;
            && (0.0 < d <==> current < price)
            && (d == 0.0 <==> price == current)
            && (d < 0.0 <==> price < current)
  {
    var d := PriceDifferencePercent(price, current).value;
    assert d * current == (price - current) * 100.0;
    if 0.0 < d {
      assert 0.0 < d * current;
    } else if d < 0.0 {
      assert d * current < 0.0;
    }
  }

  /**
   * Nothing reaches the exchange unless every check passes; then the price is read; a zero price
   * aborts before the order; otherwise exactly the LIMIT request is sent and its answer returned.
   */
  method PlaceLimitOrder(bot: BasicBot, symbol: string, side: string, quantity: real, price: real,
                         timeInForce: string := DEFAULT_TIME_IN_FORCE)
    returns (r: Result<Response, Error>)
    modifies bot.client`log
    ensures LimitRequest(symbol, side, quantity, price, timeInForce).Err? ==>
              r == Err(LimitRequest(symbol, side, quantity, price, timeInForce).error)
              && bot.client.log == old(bot.client.log)
    ensures LimitRequest(symbol, side, quantity, price, timeInForce).Ok? ==>
              var request := LimitRequest(symbol, side, quantity, price, timeInForce).value;
              var start := |old(bot.client.log)|;
              var current := bot.client.PriceOf(request.symbol, start);
              if current.Err? then
                bot.client.log == old(bot.client.log) + [Ticker(request.symbol)] && r == Err(current.error)
              else if current.value == 0.0 then
                bot.client.log == old(bot.client.log) + [Ticker(request.symbol)] && r == Err(DivisionByZero)
              else
                bot.client.log == old(bot.client.log) + [Ticker(request.symbol)] + [NewOrder(request)]
                && r == Answer(bot.client.reply(start + 1))
  {
    var valid := LimitRequest(symbol, side, quantity, price, timeInForce);
    if valid.Err? {
      return Err(valid.error);
    }
    var request := valid.value;
    var current := bot.GetCurrentPrice(request.symbol);
    if current.Err? {
      return Err(current.error);
    }
    var difference := PriceDifferencePercent(price, current.value);
    if difference.Err? {
      return Err(difference.error);
    }
    r := bot.client.CreateOrder(request);
  }
}
