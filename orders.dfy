/**
 * The vocabulary of an order request: sides, order types, time-in-force policies, and the
 * request itself with the keyword arguments the code passes to the SDK's order call.
 */
module Orders {
  import opened Wrappers

  datatype Side = Buy | Sell {
    function Name(): string {
      match this
      case Buy => "BUY"
      case Sell => "SELL"
    }
  }

  /** Every `type` the code sends; Stop is sent by the stop-limit order but is not in the validator's list. */
  datatype OrderType = Market | Limit | Stop | StopMarket | StopLimit | TakeProfitMarket {
    function Name(): string {
      match this
      case Market => "MARKET"
      case Limit => "LIMIT"
      case Stop => "STOP"
      case StopMarket => "STOP_MARKET"
      case StopLimit => "STOP_LIMIT"
      case TakeProfitMarket => "TAKE_PROFIT_MARKET"
    }
  }

  /** The time-in-force the limit and stop-limit orders use when the caller gives none. */
  const DEFAULT_TIME_IN_FORCE: string := "GTC"

  datatype TimeInForce = GTC | IOC | FOK {
    function Name(): string {
      match this
      case GTC => "GTC"
      case IOC => "IOC"
      case FOK => "FOK"
    }
  }

  /** One order-placement request; an absent keyword argument is None. */
  datatype Request = Request(
    symbol: string,
    side: Side,
    orderType: OrderType,
    quantity: real,
    price: Option<real>,
    stopPrice: Option<real>,
    timeInForce: Option<TimeInForce>)
}
