/**
 * The exchange as the trading code sees it through the SDK client: a log of every call
 * issued, in order, and fixed answers. Every call except the server-time query gets the
 * scripted reply for its position in the log, which decides whether the SDK raises. A read
 * call that is not refused answers from the snapshot the client is built with.
 */
module Exchange {
  import opened Wrappers
  import opened Errors
  import opened Orders

  /** The fields of an exchange answer that the code reads. */
  datatype Response = Response(orderId: int, symbol: string, executedQty: real)

  /** What the exchange answers to a call that can be refused. */
  datatype Reply =
    | Accepted(response: Response)
    | ApiError(code: int, message: string)
    | TransportError(message: string)

  datatype SymbolInfo = SymbolInfo(symbol: string, pricePrecision: int, quantityPrecision: int)

  datatype Position = Position(symbol: string, positionAmt: real)

  /** Keyword arguments of a query call. */
  type Params = map<string, string>

  /** One SDK call, as recorded in the client's log. */
  datatype Call =
    | ServerTime
    | Ping
    | Account
    | Ticker(symbol: string)
    | ExchangeInfo
    | NewOrder(request: Request)
    | ChangeLeverage(symbol: string, leverage: int)
    | OpenOrders(params: Params)
    | Cancel(symbol: string, orderId: int)
    | PositionRisk(params: Params)

  /** The code the exchange answers a price query for an unknown symbol with. */
  const INVALID_SYMBOL: int := -1121

  /** A reply as the calling code receives it: a response, or the exception the SDK raises. */
  function Answer(reply: Reply): (r: Result<Response, Error>)
    ensures r.Ok? <==> reply.Accepted?
    ensures reply.Accepted? ==> r.value == reply.response
    ensures reply.ApiError? ==> r.error == Api(reply.code, reply.message)
    ensures reply.TransportError? ==> r.error == Transport(reply.message)
  {
    match reply
    case Accepted(response) => Ok(response)
    case ApiError(code, message) => Err(Api(code, message))
    case TransportError(message) => Err(Transport(message))
  }

  /** The log entries that issuing `requests` in order leaves. */
  function NewOrders(requests: seq<Request>): (calls: seq<Call>)
    ensures |calls| == |requests|
    ensures forall i :: 0 <= i < |requests| ==> calls[i] == NewOrder(requests[i])
  {
    seq(|requests|, i requires 0 <= i < |requests| => NewOrder(requests[i]))
  }

  lemma NewOrdersAppend(a: seq<Request>, b: seq<Request>)
    ensures NewOrders(a + b) == NewOrders(a) + NewOrders(b)
  {
  }

  class Client {
    var log: seq<Call>
    var timestampOffset: int
    const prices: map<string, real>
    const serverTime: Option<int>
    const symbols: seq<SymbolInfo>
    const openOrdersFor: Params -> seq<Response>
    const positionsFor: Params -> seq<Position>
    const reply: nat -> Reply

    constructor (
      prices: map<string, real>,
      serverTime: Option<int>,
      symbols: seq<SymbolInfo>,
      openOrdersFor: Params -> seq<Response>,
      positionsFor: Params -> seq<Position>,
      reply: nat -> Reply)
      ensures log == [] && timestampOffset == 0
      ensures this.prices == prices && this.serverTime == serverTime
      ensures this.symbols == symbols && this.openOrdersFor == openOrdersFor
      ensures this.positionsFor == positionsFor && this.reply == reply
    {
      log := [];
      timestampOffset := 0;
      this.prices := prices;
      this.serverTime := serverTime;
      this.symbols := symbols;
      this.openOrdersFor := openOrdersFor;
      this.positionsFor := positionsFor;
      this.reply := reply;
    }

    /** The answer to a read call at log position `n`: `value`, unless the exchange refuses the call. */
    function Fetched<T>(n: nat, value: T): (r: Result<T, Error>)
      ensures r.Ok? <==> reply(n).Accepted?
      ensures r.Ok? ==> r.value == value
      ensures r.Err? ==> r.error == Answer(reply(n)).error
    {
      if reply(n).Accepted? then Ok(value) else Err(Answer(reply(n)).error)
    }

    /**
     * The answer to a price query for `symbol` at log position `n`: a refused call raises its
     * error; otherwise a listed symbol has its price and an unlisted one draws -1121.
     */
    function PriceOf(symbol: string, n: nat): (r: Result<real, Error>)
      ensures r.Ok? <==> reply(n).Accepted? && symbol in prices
      ensures r.Ok? ==> r.value == prices[symbol]
      ensures !reply(n).Accepted? ==> r == Err(Answer(reply(n)).error)
      ensures reply(n).Accepted? && symbol !in prices ==> r.Err? && r.error.Api? && r.error.code == INVALID_SYMBOL
    {
      if !reply(n).Accepted? then Err(Answer(reply(n)).error)
      else if symbol in prices then Ok(prices[symbol])
      else Err(Api(INVALID_SYMBOL, "Invalid symbol."))
    }

    method GetServerTime() returns (r: Result<int, Error>)
      modifies this`log
      ensures log == old(log) + [ServerTime]
      ensures r.Ok? <==> serverTime.Some?
      ensures r.Ok? ==> r.value == serverTime.value
    {
      log := log + [ServerTime];
      if serverTime.Some? {
        r := Ok(serverTime.value);
      } else {
        r := Err(Transport("server time unavailable"));
      }
    }

    method FuturesPing() returns (r: Result<(), Error>)
      modifies this`log
      ensures log == old(log) + [Ping]
      ensures r.Ok? <==> reply(|old(log)|).Accepted?
      ensures r.Err? ==> r.error == Answer(reply(|old(log)|)).error
    {
      var answer := Answer(reply(|log|));
      log := log + [Ping];
      r := if answer.Ok? then Ok(()) else Err(answer.error);
    }

    method FuturesAccount() returns (r: Result<(), Error>)
      modifies this`log
      ensures log == old(log) + [Account]
      ensures r.Ok? <==> reply(|old(log)|).Accepted?
      ensures r.Err? ==> r.error == Answer(reply(|old(log)|)).error
    {
      var answer := Answer(reply(|log|));
      log := log + [Account];
      r := if answer.Ok? then Ok(()) else Err(answer.error);
    }

    method SymbolTicker(symbol: string) returns (r: Result<real, Error>)
      modifies this`log
      ensures log == old(log) + [Ticker(symbol)]
      ensures r == PriceOf(symbol, |old(log)|)
    {
      r := PriceOf(symbol, |log|);
      log := log + [Ticker(symbol)];
    }

    method ExchangeInformation() returns (r: Result<seq<SymbolInfo>, Error>)
      modifies this`log
      ensures log == old(log) + [ExchangeInfo]
      ensures r == Fetched(|old(log)|, symbols)
    {
      r := Fetched(|log|, symbols);
      log := log + [ExchangeInfo];
    }

    method CreateOrder(request: Request) returns (r: Result<Response, Error>)
      modifies this`log
      ensures log == old(log) + [NewOrder(request)]
      ensures r == Answer(reply(|old(log)|))
    {
      r := Answer(reply(|log|));
      log := log + [NewOrder(request)];
    }

    method SetLeverage(symbol: string, leverage: int) returns (r: Result<Response, Error>)
      modifies this`log
      ensures log == old(log) + [ChangeLeverage(symbol, leverage)]
      ensures r == Answer(reply(|old(log)|))
    {
      r := Answer(reply(|log|));
      log := log + [ChangeLeverage(symbol, leverage)];
    }

    method CancelOrder(symbol: string, orderId: int) returns (r: Result<Response, Error>)
      modifies this`log
      ensures log == old(log) + [Cancel(symbol, orderId)]
      ensures r == Answer(reply(|old(log)|))
    {
      r := Answer(reply(|log|));
      log := log + [Cancel(symbol, orderId)];
    }

    method GetOpenOrders(params: Params) returns (r: Result<seq<Response>, Error>)
      modifies this`log
      ensures log == old(log) + [OpenOrders(params)]
      ensures r == Fetched(|old(log)|, openOrdersFor(params))
    {
      r := Fetched(|log|, openOrdersFor(params));
      log := log + [OpenOrders(params)];
    }

    method PositionInformation(params: Params) returns (r: Result<seq<Position>, Error>)
      modifies this`log
      ensures log == old(log) + [PositionRisk(params)]
      ensures r == Fetched(|old(log)|, positionsFor(params))
    {
      r := Fetched(|log|, positionsFor(params));
      log := log + [PositionRisk(params)];
    }
  }
}
