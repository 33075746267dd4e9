/**
 * OCOBot.place_oco_order: a take-profit and a stop-loss placed as two separate orders
 * (the futures exchange has no native one-cancels-the-other order).
 */
module Oco {
  import opened Wrappers
  import opened Errors
  import opened Orders
  import opened Exchange
  import opened Validator
  import opened BaseBot

  /** The validated arguments of an OCO pair. */
  datatype OcoOrder = OcoOrder(symbol: string, side: Side, quantity: real, takeProfit: real, stopLoss: real)

  /** The two exchange answers, under the names the bot returns them by. */
  datatype OcoResult = OcoResult(takeProfitOrder: Response, stopLossOrder: Response)

  /** The checks run in the order symbol, side, quantity, take-profit, stop-loss; the first failure is reported. */
  function OcoArguments(symbol: string, side: string, quantity: real, takeProfit: real, stopLoss: real)
    : (r: Result<OcoOrder, Error>)
    ensures r.Ok? <==>
              && ValidateSymbol(symbol).Ok? && ValidateSide(side).Ok? && ValidateQuantity(quantity).Ok?
              && 0.0 < takeProfit && 0.0 < stopLoss
    ensures ValidateSymbol(symbol).Err? ==> r == Err(ValidateSymbol(symbol).error)
    ensures ValidateSymbol(symbol).Ok? && ValidateSide(side).Err? ==> r == Err(ValidateSide(side).error)
    ensures (ValidateSymbol(symbol).Ok? && ValidateSide(side).Ok? && ValidateQuantity(quantity).Err?) ==>
              r == Err(ValidateQuantity(quantity).error)
    ensures (ValidateSymbol(symbol).Ok? && ValidateSide(side).Ok? && ValidateQuantity(quantity).Ok?
             && takeProfit <= 0.0) ==> r == Err(Invalid(NonPositivePrice(takeProfit)))
    ensures (ValidateSymbol(symbol).Ok? && ValidateSide(side).Ok? && ValidateQuantity(quantity).Ok?
             && 0.0 < takeProfit && stopLoss <= 0.0) ==> r == Err(Invalid(NonPositivePrice(stopLoss)))
    ensures r.Ok? ==>
              r.value == OcoOrder(ValidateSymbol(symbol).value, ValidateSide(side).value, quantity, takeProfit, stopLoss)
  {
    var s :- ValidateSymbol(symbol);
    var d :- ValidateSide(side);
    var q :- ValidateQuantity(quantity);
    var tp :- ValidatePrice(takeProfit);
    var sl :- ValidatePrice(stopLoss);
    Ok(OcoOrder(s, d, q, tp, sl))
  }

  /**
   * The price sanity check against the market price `current`, applied to SELL only: the take-profit
   * must lie strictly above and the stop-loss strictly below; a BUY pair is not checked at all.
   */
  function CheckAgainstMarket(order: OcoOrder, current: real): (r: Result<OcoOrder, Error>)
    ensures r.Ok? <==> order.side == Buy || (current < order.takeProfit && order.stopLoss < current)
    ensures r.Ok? ==> r.value == order
    ensures order.side == Sell && order.takeProfit <= current ==>
              r == Err(Invalid(TakeProfitNotAboveMarket(order.takeProfit, current)))
    ensures order.side == Sell && current < order.takeProfit && current <= order.stopLoss ==>
              r == Err(Invalid(StopLossNotBelowMarket(order.stopLoss, current)))
  {
    if order.side == Sell && order.takeProfit <= current then
      Err(Invalid(TakeProfitNotAboveMarket(order.takeProfit, current)))
    else if order.side == Sell && order.stopLoss >= current then
      Err(Invalid(StopLossNotBelowMarket(order.stopLoss, current)))
    else
      assert order.side.Buy? || order.side.Sell?;
      Ok(order)
  }

  /** The take-profit leg: a TAKE_PROFIT_MARKET order triggered at the take-profit price. */
  function TakeProfitRequest(order: OcoOrder): Request {
    Request(order.symbol, order.side, TakeProfitMarket, order.quantity, None, Some(order.takeProfit), None)
  }

  /** The stop-loss leg: a STOP_MARKET order triggered at the stop-loss price. */
  function StopLossRequest(order: OcoOrder): Request {
    Request(order.symbol, order.side, StopMarket, order.quantity, None, Some(order.stopLoss), None)
  }

  /** An accepted SELL pair brackets the market: take-profit above, stop-loss below, so the legs never coincide. */
  lemma AcceptedSellBrackets(order: OcoOrder, current: real)
    requires order.side == Sell && CheckAgainstMarket(order, current).Ok?
    ensures order.stopLoss < current < order.takeProfit
    ensures TakeProfitRequest(order).stopPrice.value > StopLossRequest(order).stopPrice.value
  {
  }

  /** The two legs differ only in order type and trigger price; neither carries a limit price or time-in-force. */
  lemma LegsAgree(order: OcoOrder)
    ensures TakeProfitRequest(order).(orderType := StopMarket, stopPrice := Some(order.stopLoss))
            == StopLossRequest(order)
    ensures TakeProfitRequest(order).price.None? && StopLossRequest(order).price.None?
    ensures TakeProfitRequest(order).timeInForce.None? && StopLossRequest(order).timeInForce.None?
  {
  }

  /**
   * Nothing reaches the exchange unless the arguments and the market check pass; then the take-profit
   * leg is sent and, only if it is accepted, the stop-loss leg. A failed second leg leaves the first
   * one placed (nothing is cancelled) and reports the error.
   */
  method PlaceOcoOrder(bot: BasicBot, symbol: string, side: string, quantity: real, takeProfit: real, stopLoss: real)
    returns (r: Result<OcoResult, Error>)
    modifies bot.client`log
    ensures OcoArguments(symbol, side, quantity, takeProfit, stopLoss).Err? ==>
              r == Err(OcoArguments(symbol, side, quantity, takeProfit, stopLoss).error)
              && bot.client.log == old(bot.client.log)
    ensures OcoArguments(symbol, side, quantity, takeProfit, stopLoss).Ok? ==>
              var order := OcoArguments(symbol, side, quantity, takeProfit, stopLoss).value;
              var start := |old(bot.client.log)|;
              var current := bot.client.PriceOf(order.symbol, start);
              var first := Answer(bot.client.reply(start + 1));
              var second := Answer(bot.client.reply(start + 2));
              if current.Err? then
                bot.client.log == old(bot.client.log) + [Ticker(order.symbol)] && r == Err(current.error)
              else if CheckAgainstMarket(order, current.value).Err? then
                bot.client.log == old(bot.client.log) + [Ticker(order.symbol)]
                && r == Err(CheckAgainstMarket(order, current.value).error)
              else if first.Err? then
                bot.client.log == old(bot.client.log) + [Ticker(order.symbol)] + [NewOrder(TakeProfitRequest(order))]
                && r == Err(first.error)
              else
                bot.client.log
                  == old(bot.client.log) + [Ticker(order.symbol)] + [NewOrder(TakeProfitRequest(order))]
                     + [NewOrder(StopLossRequest(order))]
                && r == (if second.Err? then Err(second.error) else Ok(OcoResult(first.value, second.value)))
  {
    var valid := OcoArguments(symbol, side, quantity, takeProfit, stopLoss);
    if valid.Err? {
      return Err(valid.error);
    }
    var order := valid.value;
    var current := bot.GetCurrentPrice(order.symbol);
    if current.Err? {
      return Err(current.error);
    }
    var checked := CheckAgainstMarket(order, current.value);
    if checked.Err? {
      return Err(checked.error);
    }
    var takeProfitOrder :- bot.client.CreateOrder(TakeProfitRequest(order));
    var stopLossOrder :- bot.client.CreateOrder(StopLossRequest(order));
    r := Ok(OcoResult(takeProfitOrder, stopLossOrder));
  }
}
