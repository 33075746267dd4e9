/** StopLimitBot.place_stop_limit_order: a STOP order whose trigger must lie beyond the market price. */
module StopLimit {
  import opened Wrappers
  import opened Errors
  import opened Orders
  import opened Exchange
  import opened Validator
  import opened BaseBot

  /** The validated arguments of a stop-limit order. */
  datatype StopLimitOrder = StopLimitOrder(
    symbol: string,
    side: Side,
    quantity: real,
    stopPrice: real,
    limitPrice: real,
    timeInForce: TimeInForce)

  /**
   * The checks run in the order symbol, side, quantity, stop price, limit price, time-in-force;
   * the first that fails is reported.
   */
  function StopLimitArguments(symbol: string, side: string, quantity: real, stopPrice: real, limitPrice: real,
                              timeInForce: string := DEFAULT_TIME_IN_FORCE): (r: Result<StopLimitOrder, Error>)
    ensures r.Ok? <==>
              && ValidateSymbol(symbol).Ok? && ValidateSide(side).Ok? && ValidateQuantity(quantity).Ok?
              && 0.0 < stopPrice && 0.0 < limitPrice && ValidateTimeInForce(timeInForce).Ok?
    ensures ValidateSymbol(symbol).Err? ==> r == Err(ValidateSymbol(symbol).error)
    ensures ValidateSymbol(symbol).Ok? && ValidateSide(side).Err? ==> r == Err(ValidateSide(side).error)
    ensures (ValidateSymbol(symbol).Ok? && ValidateSide(side).Ok? && ValidateQuantity(quantity).Err?) ==>
              r == Err(ValidateQuantity(quantity).error)
    ensures (ValidateSymbol(symbol).Ok? && ValidateSide(side).Ok? && ValidateQuantity(quantity).Ok?
             && stopPrice <= 0.0) ==> r == Err(Invalid(NonPositivePrice(stopPrice)))
    ensures (ValidateSymbol(symbol).Ok? && ValidateSide(side).Ok? && ValidateQuantity(quantity).Ok?
             && 0.0 < stopPrice && limitPrice <= 0.0) ==> r == Err(Invalid(NonPositivePrice(limitPrice)))
    ensures (ValidateSymbol(symbol).Ok? && ValidateSide(side).Ok? && ValidateQuantity(quantity).Ok?
             && 0.0 < stopPrice && 0.0 < limitPrice && ValidateTimeInForce(timeInForce).Err?) ==>
              r == Err(ValidateTimeInForce(timeInForce).error)
    ensures r.Ok? ==>
              r.value == StopLimitOrder(ValidateSymbol(symbol).value, ValidateSide(side).value, quantity,
                                        stopPrice, limitPrice, ValidateTimeInForce(timeInForce).value)
  {
    var s :- ValidateSymbol(symbol);
    var d :- ValidateSide(side);
    var q :- ValidateQuantity(quantity);
    var stop :- ValidatePrice(stopPrice);
    var limit :- ValidatePrice(limitPrice);
    var t :- ValidateTimeInForce(timeInForce);
    Ok(StopLimitOrder(s, d, q, stop, limit, t))
  }

  /**
   * Against the market price `current`: a BUY must trigger strictly above it, a SELL strictly
   * below it. When it does, the order goes out as a STOP order carrying both prices.
   */
  function TriggerRequest(order: StopLimitOrder, current: real): (r: Result<Request, Error>)
    ensures r.Ok? <==>
              (order.side == Buy && current < order.stopPrice) || (order.side == Sell && order.stopPrice < current)
    ensures order.side == Buy && order.stopPrice <= current ==>
              r == Err(Invalid(BuyStopNotAboveMarket(order.stopPrice, current)))
    ensures order.side == Sell && current <= order.stopPrice ==>
              r == Err(Invalid(SellStopNotBelowMarket(order.stopPrice, current)))
    ensures r.Ok? ==>
              && r.value.symbol == order.symbol && r.value.side == order.side
              && r.value.orderType == Stop && r.value.quantity == order.quantity
              && r.value.price == Some(order.limitPrice) && r.value.stopPrice == Some(order.stopPrice)
              && r.value.timeInForce == Some(order.timeInForce)
  {
    if order.side == Buy && order.stopPrice <= current then
      Err(Invalid(BuyStopNotAboveMarket(order.stopPrice, current)))
    else if order.side == Sell && order.stopPrice >= current then
      Err(Invalid(SellStopNotBelowMarket(order.stopPrice, current)))
    else
      assert order.side.Buy? || order.side.Sell?;
      Ok(Request(order.symbol, order.side, Stop, order.quantity, Some(order.limitPrice),
                 Some(order.stopPrice), Some(order.timeInForce)))
  }

  /** The limit price is never compared with the stop price or the market: only the stop price decides. */
  lemma LimitPriceNotChecked(order: StopLimitOrder, current: real, limitPrice: real)
    ensures TriggerRequest(order.(limitPrice := limitPrice), current).Ok? == TriggerRequest(order, current).Ok?
    ensures TriggerRequest(order, current).Ok? ==>
              TriggerRequest(order.(limitPrice := limitPrice), current).value
              == TriggerRequest(order, current).value.(price := Some(limitPrice))
  {
  }

  /** A trigger that is accepted at one market price stays accepted as the market moves away from it. */
  lemma TriggerMonotone(order: StopLimitOrder, current: real, further: real)
    requires TriggerRequest(order, current).Ok?
    requires if order.side == Buy then further <= current else current <= further
    ensures TriggerRequest(order, further) == TriggerRequest(order, current)
  {
  }

  /**
   * Nothing reaches the exchange unless the arguments pass; the price is then read, the trigger
   * checked against it, and only an accepted trigger is sent, as one STOP order.
   */
  method PlaceStopLimitOrder(bot: BasicBot, symbol: string, side: string, quantity: real,
                             stopPrice: real, limitPrice: real, timeInForce: string := DEFAULT_TIME_IN_FORCE)
    returns (r: Result<Response, Error>)
    modifies bot.client`log
    ensures StopLimitArguments(symbol, side, quantity, stopPrice, limitPrice, timeInForce).Err? ==>
              r == Err(StopLimitArguments(symbol, side, quantity, stopPrice, limitPrice, timeInForce).error)
              && bot.client.log == old(bot.client.log)
    ensures StopLimitArguments(symbol, side, quantity, stopPrice, limitPrice, timeInForce).Ok? ==>
              var order := StopLimitArguments(symbol, side, quantity, stopPrice, limitPrice, timeInForce).value;
              var start := |old(bot.client.log)|;
              var current := bot.client.PriceOf(order.symbol, start);
              if current.Err? then
                bot.client.log == old(bot.client.log) + [Ticker(order.symbol)] && r == Err(current.error)
              else if TriggerRequest(order, current.value).Err? then
                bot.client.log == old(bot.client.log) + [Ticker(order.symbol)]
                && r == Err(TriggerRequest(order, current.value).error)
              else
                bot.client.log
                  == old(bot.client.log) + [Ticker(order.symbol)] + [NewOrder(TriggerRequest(order, current.value).value)]
                && r == Answer(bot.client.reply(start + 1))
  {
    var valid := StopLimitArguments(symbol, side, quantity, stopPrice, limitPrice, timeInForce);
    if valid.Err? {
      return Err(valid.error);
    }
    var order := valid.value;
    var current := bot.GetCurrentPrice(order.symbol);
    if current.Err? {
      return Err(current.error);
    }
    var request := TriggerRequest(order, current.value);
    if request.Err? {
      return Err(request.error);
    }
    r := bot.client.CreateOrder(request.value);
  }
}
