/**
 * BasicBot: credential resolution, clock synchronisation and the query helpers every
 * strategy is built on. The SDK client is passed in already constructed.
 */
module BaseBot {
  import opened Wrappers
  import opened Errors
  import opened Orders
  import opened Exchange
  import opened Validator
  import Config

  datatype Credentials = Credentials(apiKey: string, apiSecret: string)

  /** Python's `arg or fallback` for an optional string argument. */
  function OrElse(arg: Option<string>, fallback: string): (s: string)
    ensures arg.Some? && arg.value != "" ==> s == arg.value
    ensures arg.None? || arg.value == "" ==> s == fallback
  {
    if arg.Some? && arg.value != "" then arg.value else fallback
  }

  /** The credentials the constructor keeps: each argument, or the configured value when it is falsy. */
  function ResolveCredentials(apiKey: Option<string>, apiSecret: Option<string>, settings: Config.Settings)
    : (r: Result<Credentials, Error>)
    ensures r.Ok? <==> OrElse(apiKey, settings.apiKey) != "" && OrElse(apiSecret, settings.apiSecret) != ""
    ensures r.Ok? ==> r.value == Credentials(OrElse(apiKey, settings.apiKey), OrElse(apiSecret, settings.apiSecret))
    ensures r.Err? ==> r.error == CredentialsNotProvided
  {
    var key := OrElse(apiKey, settings.apiKey);
    var secret := OrElse(apiSecret, settings.apiSecret);
    if key == "" || secret == "" then Err(CredentialsNotProvided) else Ok(Credentials(key, secret))
  }

  /** Without arguments the constructor accepts exactly the settings Config.validate accepts. */
  lemma CredentialsFromConfig(settings: Config.Settings)
    ensures ResolveCredentials(None, None, settings).Ok? <==> Config.Validate(settings).Ok?
    ensures ResolveCredentials(Some(""), Some(""), settings) == ResolveCredentials(None, None, settings)
  {
  }

  /** Given non-empty arguments win over whatever is configured. */
  lemma ArgumentsOverrideConfig(apiKey: string, apiSecret: string, settings: Config.Settings)
    requires apiKey != "" && apiSecret != ""
    ensures ResolveCredentials(Some(apiKey), Some(apiSecret), settings) == Ok(Credentials(apiKey, apiSecret))
  {
  }

  /** The clock offset: what must be added to the local time (in ms) to obtain the server's. */
  function TimestampOffset(serverTime: int, localMillis: int): (offset: int)
    ensures localMillis + offset == serverTime
  {
    serverTime - localMillis
  }

  /** Query parameters: a symbol key only when a non-empty symbol is given, holding its validated form. */
  function SymbolParams(symbol: Option<string>): (r: Result<Params, Error>)
    ensures symbol.None? || symbol.value == "" ==> r == Ok(map[])
    ensures symbol.Some? && symbol.value != "" ==>
              (r.Ok? <==> ValidateSymbol(symbol.value).Ok?)
              && (r.Ok? ==> r.value == map["symbol" := ValidateSymbol(symbol.value).value])
              && (r.Err? ==> r.error == ValidateSymbol(symbol.value).error)
  {
    if symbol.None? || symbol.value == "" then Ok(map[])
    else
      var s :- ValidateSymbol(symbol.value);
      Ok(map["symbol" := s])
  }

  /** The positions whose amount is not zero, in their original order. */
  function ActivePositions(positions: seq<Position>): (r: seq<Position>)
    ensures |r| <= |positions|
    ensures forall p :: p in r ==> p in positions && p.positionAmt != 0.0
    ensures forall p :: p in positions && p.positionAmt != 0.0 ==> p in r
  {
    if positions == [] then []
    else
      var rest := ActivePositions(positions[1..]);
      if positions[0].positionAmt != 0.0 then [positions[0]] + rest else rest
  }

  /** Filtering distributes over concatenation, so the relative order of positions is kept. */
  lemma {:induction false} ActivePositionsAppend(a: seq<Position>, b: seq<Position>)
    ensures ActivePositions(a + b) == ActivePositions(a) + ActivePositions(b)
    decreases |a|
  {
    if a == [] {
      assert a + b == b;
    } else {
      assert (a + b)[1..] == a[1..] + b;
      ActivePositionsAppend(a[1..], b);
    }
  }

  /** Filtering an already filtered list changes nothing. */
  lemma {:induction false} ActivePositionsIdempotent(positions: seq<Position>)
    ensures ActivePositions(ActivePositions(positions)) == ActivePositions(positions)
    decreases |positions|
  {
    if positions != [] {
      ActivePositionsIdempotent(positions[1..]);
      var rest := ActivePositions(positions[1..]);
      if positions[0].positionAmt != 0.0 {
        assert ([positions[0]] + rest)[1..] == rest;
      }
    }
  }

  /** The first entry of `infos` whose symbol is `symbol`. */
  function FirstMatch(infos: seq<SymbolInfo>, symbol: string): (r: Option<SymbolInfo>)
    ensures r.Some? ==> r.value in infos && r.value.symbol == symbol
    ensures r.None? <==> forall i :: 0 <= i < |infos| ==> infos[i].symbol != symbol
  {
    if infos == [] then None
    else if infos[0].symbol == symbol then Some(infos[0])
    else FirstMatch(infos[1..], symbol)
  }

  /** Entries before the first match are skipped whatever follows: the earliest match wins. */
  lemma {:induction false} FirstMatchIsEarliest(before: seq<SymbolInfo>, info: SymbolInfo, after: seq<SymbolInfo>)
    requires forall i :: 0 <= i < |before| ==> before[i].symbol != info.symbol
    ensures FirstMatch(before + [info] + after, info.symbol) == Some(info)
    decreases |before|
  {
    if before == [] {
      assert (before + [info] + after)[0] == info;
    } else {
      assert (before + [info] + after)[1..] == before[1..] + [info] + after;
      FirstMatchIsEarliest(before[1..], info, after);
    }
  }

  /** The search loop of get_symbol_info: returns at the first matching entry. */
  method FindSymbol(infos: seq<SymbolInfo>, symbol: string) returns (found: Option<SymbolInfo>)
    ensures found == FirstMatch(infos, symbol)
  {
    var i := 0;
    while i < |infos|
      invariant 0 <= i <= |infos|
      invariant FirstMatch(infos[i..], symbol) == FirstMatch(infos, symbol)
    {
      assert infos[i..][1..] == infos[i + 1..];
      if infos[i].symbol == symbol {
        return Some(infos[i]);
      }
      i := i + 1;
    }
    return None;
  }

  class BasicBot {
    const apiKey: string
    const apiSecret: string
    const testnet: bool
    const client: Client

    constructor (credentials: Credentials, testnet: bool, client: Client)
      requires credentials.apiKey != "" && credentials.apiSecret != ""
      ensures apiKey == credentials.apiKey && apiSecret == credentials.apiSecret
      ensures this.testnet == testnet && this.client == client
    {
      apiKey := credentials.apiKey;
      apiSecret := credentials.apiSecret;
      this.testnet := testnet;
      this.client := client;
    }

    /** get_current_price: validates the symbol, then asks the exchange. */
    method GetCurrentPrice(symbol: string) returns (r: Result<real, Error>)
      modifies client`log
      ensures ValidateSymbol(symbol).Err? ==> r == Err(ValidateSymbol(symbol).error) && client.log == old(client.log)
      ensures ValidateSymbol(symbol).Ok? ==>
                client.log == old(client.log) + [Ticker(ValidateSymbol(symbol).value)]
                && r == client.PriceOf(ValidateSymbol(symbol).value, |old(client.log)|)
      ensures IsSymbol(symbol) ==>
                client.log == old(client.log) + [Ticker(symbol)] && r == client.PriceOf(symbol, |old(client.log)|)
    {
      if IsSymbol(symbol) {
        CanonicalSymbolValidates(symbol);
      }
      var valid := ValidateSymbol(symbol);
      if valid.Err? {
        return Err(valid.error);
      }
      r := client.SymbolTicker(valid.value);
    }

    /** get_symbol_info: validates, fetches the exchange information and returns the first matching entry. */
    method GetSymbolInfo(symbol: string) returns (r: Result<SymbolInfo, Error>)
      modifies client`log
      ensures ValidateSymbol(symbol).Err? ==> r == Err(ValidateSymbol(symbol).error) && client.log == old(client.log)
      ensures ValidateSymbol(symbol).Ok? ==>
                var s := ValidateSymbol(symbol).value;
                && client.log == old(client.log) + [ExchangeInfo]
                && (!client.reply(|old(client.log)|).Accepted? ==>
                      r == Err(Answer(client.reply(|old(client.log)|)).error))
                && (client.reply(|old(client.log)|).Accepted? ==>
                      r == match FirstMatch(client.symbols, s)
                           case Some(info) => Ok(info)
                           case None => Err(SymbolNotFound(s)))
    {
      var valid := ValidateSymbol(symbol);
      if valid.Err? {
        return Err(valid.error);
      }
      var infos :- client.ExchangeInformation();
      var found := FindSymbol(infos, valid.value);
      if found.None? {
        return Err(SymbolNotFound(valid.value));
      }
      r := Ok(found.value);
    }

    /** set_leverage: both checks precede the exchange call. */
    method SetLeverage(symbol: string, leverage: int) returns (r: Result<Response, Error>)
      modifies client`log
      ensures ValidateSymbol(symbol).Err? ==> r == Err(ValidateSymbol(symbol).error) && client.log == old(client.log)
      ensures ValidateSymbol(symbol).Ok? && ValidateLeverage(leverage).Err? ==>
                r == Err(ValidateLeverage(leverage).error) && client.log == old(client.log)
      ensures ValidateSymbol(symbol).Ok? && ValidateLeverage(leverage).Ok? ==>
                client.log == old(client.log) + [ChangeLeverage(ValidateSymbol(symbol).value, leverage)]
                && r == Answer(client.reply(|old(client.log)|))
    {
      var s := ValidateSymbol(symbol);
      if s.Err? {
        return Err(s.error);
      }
      var l := ValidateLeverage(leverage);
      if l.Err? {
        return Err(l.error);
      }
      r := client.SetLeverage(s.value, l.value);
    }

    /** get_open_orders: the parameters map is built in place from the optional symbol. */
    method GetOpenOrders(symbol: Option<string>) returns (r: Result<seq<Response>, Error>)
      modifies client`log
      ensures SymbolParams(symbol).Err? ==> r == Err(SymbolParams(symbol).error) && client.log == old(client.log)
      ensures SymbolParams(symbol).Ok? ==>
                client.log == old(client.log) + [OpenOrders(SymbolParams(symbol).value)]
                && r == client.Fetched(|old(client.log)|, client.openOrdersFor(SymbolParams(symbol).value))
    {
      var params: Params := map[];
      if symbol.Some? && symbol.value != "" {
        var s := ValidateSymbol(symbol.value);
        if s.Err? {
          return Err(s.error);
        }
        params := params["symbol" := s.value];
      }
      r := client.GetOpenOrders(params);
    }

    /** cancel_order: the symbol is validated before the exchange call. */
    method CancelOrder(symbol: string, orderId: int) returns (r: Result<Response, Error>)
      modifies client`log
      ensures ValidateSymbol(symbol).Err? ==> r == Err(ValidateSymbol(symbol).error) && client.log == old(client.log)
      ensures ValidateSymbol(symbol).Ok? ==>
                client.log == old(client.log) + [Cancel(ValidateSymbol(symbol).value, orderId)]
                && r == Answer(client.reply(|old(client.log)|))
    {
      var s := ValidateSymbol(symbol);
      if s.Err? {
        return Err(s.error);
      }
      r := client.CancelOrder(s.value, orderId);
    }

    /** get_position_info: queries with the same parameters as get_open_orders and drops empty positions. */
    method GetPositionInfo(symbol: Option<string>) returns (r: Result<seq<Position>, Error>)
      modifies client`log
      ensures SymbolParams(symbol).Err? ==> r == Err(SymbolParams(symbol).error) && client.log == old(client.log)
      ensures SymbolParams(symbol).Ok? ==>
                client.log == old(client.log) + [PositionRisk(SymbolParams(symbol).value)]
                && (!client.reply(|old(client.log)|).Accepted? ==>
                      r == Err(Answer(client.reply(|old(client.log)|)).error))
                && (client.reply(|old(client.log)|).Accepted? ==>
                      r == Ok(ActivePositions(client.positionsFor(SymbolParams(symbol).value))))
    {
      var params: Params := map[];
      if symbol.Some? && symbol.value != "" {
        var s := ValidateSymbol(symbol.value);
        if s.Err? {
          return Err(s.error);
        }
        params := params["symbol" := s.value];
      }
      var positions :- client.PositionInformation(params);
      r := Ok(ActivePositions(positions));
    }
  }

  /**
   * BasicBot.__init__: resolves the credentials (raising before any call when one is missing),
   * sets the clock offset from the server time (a failed sync is ignored), then tests the
   * connection with a ping and an account query, either of which failing aborts construction.
   */
  method NewBot(settings: Config.Settings, client: Client, localMillis: int,
                apiKey: Option<string> := None, apiSecret: Option<string> := None, testnet: bool := true)
    returns (r: Result<BasicBot, Error>)
    modifies client
    ensures ResolveCredentials(apiKey, apiSecret, settings).Err? ==>
              r == Err(CredentialsNotProvided)
              && client.log == old(client.log) && client.timestampOffset == old(client.timestampOffset)
    ensures ResolveCredentials(apiKey, apiSecret, settings).Ok? ==>
              && client.timestampOffset == (if client.serverTime.Some?
                                            then TimestampOffset(client.serverTime.value, localMillis)
                                            else old(client.timestampOffset))
              && var start := |old(client.log)|;
              && client.log == old(client.log) + [ServerTime, Ping]
                                 + (if client.reply(start + 1).Accepted? then [Account] else [])
              && (r.Ok? <==> client.reply(start + 1).Accepted? && client.reply(start + 2).Accepted?)
              && (!client.reply(start + 1).Accepted? ==> r == Err(Answer(client.reply(start + 1)).error))
              && (client.reply(start + 1).Accepted? && !client.reply(start + 2).Accepted? ==>
                    r == Err(Answer(client.reply(start + 2)).error))
    ensures r.Ok? ==>
              var credentials := ResolveCredentials(apiKey, apiSecret, settings).value;
              && fresh(r.value)
              && r.value.apiKey == credentials.apiKey && r.value.apiSecret == credentials.apiSecret
              && r.value.testnet == testnet && r.value.client == client
  {
    var credentials := ResolveCredentials(apiKey, apiSecret, settings);
    if credentials.Err? {
      return Err(credentials.error);
    }
    var time := client.GetServerTime();
    if time.Ok? {
      client.timestampOffset := TimestampOffset(time.value, localMillis);
    }
    var ping := client.FuturesPing();
    if ping.Err? {
      return Err(ping.error);
    }
    var account := client.FuturesAccount();
    if account.Err? {
      return Err(account.error);
    }
    var bot := new BasicBot(credentials.value, testnet, client);
    r := Ok(bot);
  }
}
