/**
 * What the trading code raises. `Invalid` is the repository's ValidationError, with one
 * reason per message the validators and strategies raise it with; `Api` is the SDK's
 * BinanceAPIException (the exchange answered with an error code); `Transport` is any other
 * failure of an SDK call; the remaining variants are the ValueError and ZeroDivisionError
 * raised by the code itself.
 */
module Errors {

  datatype Reason =
    | EmptySymbol
    | BadSymbolFormat(symbol: string)
    | EmptySide
    | BadSide(side: string)
    | NonPositiveQuantity(quantity: real)
    | BelowMinimum(quantity: real, minimum: real)
    | AboveMaximum(quantity: real, maximum: real)
    | NonPositivePrice(price: real)
    | EmptyOrderType
    | BadOrderType(orderType: string)
    | LeverageOutOfRange(leverage: int)
    | BadTimeInForce(timeInForce: string)
    | LowerNotBelowUpper
    | TooFewGrids
    | TooManyGrids
    | TooFewOrders
    | TooManyOrders
    | IntervalTooShort
    | BuyStopNotAboveMarket(stopPrice: real, currentPrice: real)
    | SellStopNotBelowMarket(stopPrice: real, currentPrice: real)
    | TakeProfitNotAboveMarket(takeProfit: real, currentPrice: real)
    | StopLossNotBelowMarket(stopLoss: real, currentPrice: real)

  datatype Error =
    | Invalid(reason: Reason)
    | Api(code: int, message: string)
    | Transport(message: string)
    | SymbolNotFound(symbol: string)
    | CredentialsNotFound
    | CredentialsNotProvided
    | DivisionByZero
}
