/** MarketOrderBot.place_market_order: validate, read the price for reference, send one MARKET order. */
module MarketOrders {
  import opened Wrappers
  import opened Errors
  import opened Orders
  import opened Exchange
  import opened Validator
  import opened BaseBot

  /** The request a market order sends, or the first failing check among symbol, side and quantity. */
  function MarketRequest(symbol: string, side: string, quantity: real): (r: Result<Request, Error>)
    ensures r.Ok? <==> ValidateSymbol(symbol).Ok? && ValidateSide(side).Ok? && ValidateQuantity(quantity).Ok?
    ensures ValidateSymbol(symbol).Err? ==> r == Err(ValidateSymbol(symbol).error)
    ensures ValidateSymbol(symbol).Ok? && ValidateSide(side).Err? ==> r == Err(ValidateSide(side).error)
    ensures ValidateSymbol(symbol).Ok? && ValidateSide(side).Ok? && ValidateQuantity(quantity).Err? ==>
              r == Err(ValidateQuantity(quantity).error)
    ensures r.Ok? ==>
              r.value == Request(ValidateSymbol(symbol).value, ValidateSide(side).value, Market, quantity, None, None, None)
    ensures r.Ok? ==> IsSymbol(r.value.symbol) && 0.0 < r.value.quantity
  {
    var s :- ValidateSymbol(symbol);
    var d :- ValidateSide(side);
    var q :- ValidateQuantity(quantity);
    Ok(Request(s, d, Market, q, None, None, None))
  }

  /**
   * Nothing reaches the exchange unless every check passes; then the price is read, and,
   * if that succeeds, exactly the MARKET request is sent and the exchange's answer returned as is.
   */
  method PlaceMarketOrder(bot: BasicBot, symbol: string, side: string, quantity: real)
    returns (r: Result<Response, Error>)
    modifies bot.client`log
    ensures MarketRequest(symbol, side, quantity).Err? ==>
              r == Err(MarketRequest(symbol, side, quantity).error) && bot.client.log == old(bot.client.log)
    ensures MarketRequest(symbol, side, quantity).Ok? ==>
              var request := MarketRequest(symbol, side, quantity).value;
              var start := |old(bot.client.log)|;
              if bot.client.PriceOf(request.symbol, start).Err? then
                bot.client.log == old(bot.client.log) + [Ticker(request.symbol)]
                && r == Err(bot.client.PriceOf(request.symbol, start).error)
              else
                bot.client.log == old(bot.client.log) + [Ticker(request.symbol)] + [NewOrder(request)]
                && r == Answer(bot.client.reply(start + 1))
  {
    var valid := MarketRequest(symbol, side, quantity);
    if valid.Err? {
      return Err(valid.error);
    }
    var request := valid.value;
    var current := bot.GetCurrentPrice(request.symbol);
    if current.Err? {
      return Err(current.error);
    }
    r := bot.client.CreateOrder(request);
  }
}
