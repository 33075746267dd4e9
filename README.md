# Binance Futures trading bot — a Dafny model of its core

This project models the core of a small Python bot for the Binance USDT-M Futures testnet. It covers:

- **Validator**: input checks for symbol, side, quantity, price, order type, leverage and time-in-force.
  - Each string check upper-cases the input, then strips it.
  - `Text` models the Python `upper()` and `strip()` these checks rely on.
- **Config**: the settings read from the environment, and their check.
- **BasicBot**: credential resolution, clock sync and a connection check at start-up, plus the query helpers:
  - current price, symbol info, leverage, open orders, cancel, positions.
- The order bots built on BasicBot:
  - market and limit orders;
  - stop-limit orders, whose trigger is checked against the market price;
  - OCO pairs: a take-profit and a stop-loss sent as two separate orders;
  - TWAP: a total split into equal market slices;
  - grid: limit orders at evenly spaced levels on both sides of the market.

The exchange is modelled as the class `Exchange.Client`:

- The field `log` records every SDK call in order.
- `reply(n)` is the exchange's answer to the call at log position `n`. Every call except the server-time query gets one. A call is answered in one of three ways:
  - accepted, with a response;
  - an API error (`BinanceAPIException`), which the grid skips and at which TWAP stops;
  - any other failure, which propagates everywhere.
- A read call that is accepted takes its data from constants fixed when the client is built:
  - the ticker prices (an unlisted symbol draws the -1121 API error);
  - the symbol list;
  - the open orders and positions for a query.
- The server time is a constant that may be missing; the bot ignores a failed sync.

Every bot method is proved against a specification:

- Its `ensures` states the exact new log and the result, in terms of the inputs and the exchange's answers.
- Loops are proved against recursive functions that describe them one turn at a time:
  - `Twap.Run` for the TWAP loop;
  - `Grid.Pass` for each grid pass.
- Lemmas then state what the bot promises about those functions.

Python exceptions become `Result` values. `Errors.Error` distinguishes:

- validation failures, each with a `Reason`;
- API errors;
- transport failures;
- a missing symbol;
- missing credentials;
- division by zero.

## Model

| member | source | states |
|---|---|---|
| Text.Upper | src/validator.py:42 | computes `upper()`: each character mapped by `UpperChar`, the length kept |
| Text.Lower | src/config.py:19 | computes `lower()`: each character mapped by `LowerChar`, the length kept |
| Text.TrimStart | src/validator.py:42 | computes the leading half of `strip()`: drops whitespace from the front until a non-space character |
| Text.TrimEnd | src/validator.py:42 | computes the trailing half of `strip()`: drops whitespace from the back until a non-space character |
| Text.IsSpace | src/validator.py:42 | the characters Python's `str.isspace` treats as whitespace, which `strip()` removes |
| Text.UpperChar | src/validator.py:42 | ASCII lower-case letters map to their upper-case form, 32 code points lower; every other character is unchanged |
| Text.LowerChar | src/config.py:19 | ASCII upper-case letters map to lower case; every other character is unchanged |
| Text.Strip | src/validator.py:42 | the stripped string is no longer than the input and neither begins nor ends with whitespace |
| Text.StripKeepsUpperCase | src/validator.py:42 | stripping an upper-cased string leaves it upper-cased, so stripping after upper-casing yields canonical text |
| Text.UpperIdempotent | src/validator.py:42 | upper-casing twice is the same as once |
| Text.UpperOfUpperCase | src/validator.py:42 | a string without lower-case letters is its own upper-case form |
| Text.UpperConcat | src/validator.py:42 | upper-casing distributes over concatenation |
| Text.UpperKeepsSpaces | src/validator.py:42 | upper-casing keeps the length and exactly the positions of the whitespace |
| Text.UpperEmpty | src/validator.py:39-42 | the upper-case form is empty exactly when the input is |
| Text.LowerOfUpper | src/config.py:19 | lower-casing after upper-casing equals lower-casing alone |
| Text.StripUntrimmed | src/validator.py:42 | a string with non-space ends is its own strip |
| Text.StripIdempotent | src/validator.py:42 | stripping twice is the same as once |
| Text.StripAllSpace | src/validator.py:42 | an all-whitespace string strips to empty |
| Text.TrimStartPadding | src/validator.py:42 | leading whitespace added in front is removed again |
| Text.TrimEndPadding | src/validator.py:42 | trailing whitespace added at the end is removed again |
| Text.TrimStartAppend | src/validator.py:42 | once the leading whitespace is gone, text appended later is kept as is |
| Text.StripTrailing | src/validator.py:42 | whitespace appended to a string does not change its strip |
| Text.StripPadded | src/validator.py:42 | whitespace on both sides does not change a string's strip |
| Config.GetEnv | src/config.py:15-16 | a variable's value when set, the default otherwise |
| Config.ParseTestnet | src/config.py:19 | computes the testnet flag: TESTNET, defaulting to "True", compared lower-cased with "true" |
| Config.FromEnvironment | src/config.py:15-19 | key and secret are the variables' values or empty; the testnet flag is the parsed TESTNET variable |
| Config.Validate | src/config.py:38-43 | passes, returning true, exactly when both key and secret are non-empty; otherwise "credentials not found" |
| Config.TestnetWhenUnset | src/config.py:19 | an unset TESTNET means testnet |
| Config.TestnetIgnoresCase | src/config.py:19 | the TESTNET value is compared without regard to case |
| Config.TestnetNeedsFourLetters | src/config.py:19 | a TESTNET value that is not four characters long means production |
| Config.MissingVariableFailsValidation | src/config.py:15-16 | a missing key or secret variable makes validation fail |
| Validator.IsSymbol | src/validator.py:17 | the symbol pattern: 2 to 10 capital letters A-Z followed by USDT, anchored at both ends |
| Validator.Normalize | src/validator.py:42 | computes `upper().strip()`, the form every string check works on |
| Validator.ValidateSymbol | src/validator.py:39-50 | empty input is rejected as empty; otherwise the input upper-cased and stripped must be 2-10 capital letters followed by USDT, and that normalized form is returned |
| Validator.ValidateSide | src/validator.py:66-76 | empty is rejected; otherwise the normalized text must be BUY or SELL, and the matching side is returned |
| Validator.ValidateQuantity | src/validator.py:98-112 | accepts exactly the quantities that are positive, at least the minimum (given, or MIN_QUANTITY) and at most MAX_QUANTITY, returning them unchanged; each failure has its own reason, checked in that order |
| Validator.ValidatePrice | src/validator.py:133-136 | accepts exactly the positive prices, unchanged |
| Validator.FindOrderType | src/validator.py:23 | finds the listed order type whose name is the text, or none when no type has that name |
| Validator.ValidateOrderType | src/validator.py:152-163 | empty is rejected; an accepted type is one of the five listed, and its name is the normalized input |
| Validator.ValidateLeverage | src/validator.py:184-189 | accepts exactly 1..MAX_LEVERAGE, unchanged |
| Validator.FindTimeInForce | src/validator.py:205 | finds a value exactly for GTC, IOC and FOK, named as the text |
| Validator.ValidateTimeInForce | src/validator.py:205-214 | accepts exactly when the normalized input is GTC, IOC or FOK and returns that value; otherwise rejects it, naming the normalized input |
| Validator.NormalizeCanonical | src/validator.py:42 | text without lower-case letters and with non-space ends is unchanged by normalization |
| Validator.NormalizeIdempotent | src/validator.py:42 | normalizing twice is the same as once |
| Validator.CanonicalSymbolValidates | src/validator.py:17 | every string matching the symbol pattern validates to itself |
| Validator.SymbolIdempotent | src/validator.py:39-50 | a validated symbol validates again to the same result, so the price lookup's repeated check cannot fail |
| Validator.BlankSymbolRejected | src/validator.py:39-48 | a non-empty all-whitespace symbol passes the emptiness check but fails the format check, with an empty normalized form |
| Validator.SideIgnoresCase | src/validator.py:69 | a side validates the same as its upper-case form |
| Validator.SideIgnoresPadding | src/validator.py:69 | surrounding whitespace does not change how a side validates |
| Validator.SideRoundTrip | src/validator.py:20 | every side's name validates back to that side |
| Validator.OrderTypeNameCanonical | src/validator.py:23 | order-type names are already in normalized form |
| Validator.TimeInForceNameCanonical | src/validator.py:205 | time-in-force names are already in normalized form |
| Validator.OrderTypeRoundTrip | src/validator.py:23 | each listed order type's name validates back to it; the STOP type the stop-limit bot sends is not in the list and is rejected |
| Validator.TimeInForceRoundTrip | src/validator.py:205-214 | each time-in-force name validates back to it |
| Validator.EmptyTimeInForceRejected | src/validator.py:205-212 | unlike the other string checks, an empty time-in-force is not rejected as empty; it fails as an unknown value |
| Validator.ConfiguredBoundsInclusive | src/config.py:28-33 | MIN_QUANTITY and MAX_QUANTITY are themselves accepted quantities and the values just outside are refused; DEFAULT_LEVERAGE, 1 and MAX_LEVERAGE are accepted leverages, 0 and MAX_LEVERAGE + 1 are not |
| Validator.QuantityWithinConfiguredBounds | src/validator.py:101-110 | a quantity validated with the default minimum lies within the configured bounds |
| Exchange.Answer | src/base_bot.py:191-196 | an accepted reply gives its response; an API error gives an API error with the same code and message; anything else gives a transport error |
| Exchange.NewOrders | src/advanced/twap.py:80-85 | one order-placement log entry per request, in order |
| Exchange.NewOrdersAppend | src/advanced/grid_strategy.py:76-112 | the log entries of two request lists in sequence are the entries of each list, concatenated |
| Exchange.Client.constructor | src/base_bot.py:33 | a new client starts with an empty log and a zero clock offset |
| Exchange.Client.Fetched | src/base_bot.py:94 | a read call at log position n returns its data exactly when the exchange accepts the call, and otherwise raises that reply's error |
| Exchange.Client.PriceOf | src/base_bot.py:124-125 | a refused ticker call raises its reply's error; otherwise a listed symbol's price, and the invalid-symbol API error -1121 for an unlisted one |
| Exchange.Client.GetServerTime | src/base_bot.py:41 | logs one server-time call; succeeds exactly when the server time is known, and returns it |
| Exchange.Client.FuturesPing | src/base_bot.py:64 | logs one ping; succeeds exactly when the exchange accepts it |
| Exchange.Client.FuturesAccount | src/base_bot.py:69 | logs one account query; succeeds exactly when the exchange accepts it |
| Exchange.Client.SymbolTicker | src/base_bot.py:124 | logs one ticker call and returns the price answer for that symbol at its log position |
| Exchange.Client.ExchangeInformation | src/base_bot.py:94 | logs one exchange-information call and returns the symbol list, or the error of a refused call |
| Exchange.Client.CreateOrder | src/market_orders.py:51-56 | logs exactly this order request and returns the exchange's answer at that log position |
| Exchange.Client.SetLeverage | src/base_bot.py:178-181 | logs the leverage change and returns the answer |
| Exchange.Client.CancelOrder | src/base_bot.py:243-246 | logs the cancellation and returns the answer |
| Exchange.Client.GetOpenOrders | src/base_bot.py:215 | logs the query with its parameters and returns the open orders for them, or the error of a refused call |
| Exchange.Client.PositionInformation | src/base_bot.py:280 | logs the query with its parameters and returns the positions for them, or the error of a refused call |
| BaseBot.OrElse | src/base_bot.py:23-24 | a non-empty argument wins, otherwise the fallback, as Python's `or` does for strings |
| BaseBot.ResolveCredentials | src/base_bot.py:23-29 | succeeds exactly when the key and the secret, each taken from the arguments or else from the configuration, are both non-empty; otherwise "credentials not provided" |
| BaseBot.CredentialsFromConfig | src/base_bot.py:23-29 | without arguments, credentials resolve exactly when the configuration validates; empty arguments count as absent |
| BaseBot.ArgumentsOverrideConfig | src/base_bot.py:23-24 | non-empty arguments are used whatever the configuration holds |
| BaseBot.TimestampOffset | src/base_bot.py:43-45 | local time plus the offset is the server time |
| BaseBot.SymbolParams | src/base_bot.py:209-212 | no symbol key for an absent or empty symbol; otherwise the key holds the validated symbol, or the validation error is returned |
| BaseBot.ActivePositions | src/base_bot.py:283 | keeps exactly the positions with a non-zero amount |
| BaseBot.ActivePositionsAppend | src/base_bot.py:283 | filtering a concatenation is concatenating the filtered parts, so the original order is kept |
| BaseBot.ActivePositionsIdempotent | src/base_bot.py:283 | filtering twice is the same as once |
| BaseBot.FirstMatch | src/base_bot.py:96-101 | a found entry is in the list and carries the symbol; nothing is found exactly when no entry carries it |
| BaseBot.FirstMatchIsEarliest | src/base_bot.py:96-99 | the search returns the first entry carrying the symbol, whatever follows it |
| BaseBot.FindSymbol | src/base_bot.py:96-101 | the search loop returns exactly the first matching entry, or none |
| BaseBot.BasicBot.constructor | src/base_bot.py:23-33 | the bot holds the resolved credentials, the testnet flag and the client |
| BaseBot.BasicBot.GetCurrentPrice | src/base_bot.py:121-135 | an invalid symbol fails before any call; otherwise one ticker call for the normalized symbol, whose price or error is returned; an already-canonical symbol is queried as is |
| BaseBot.BasicBot.GetSymbolInfo | src/base_bot.py:91-108 | an invalid symbol fails before any call; otherwise one exchange-information call; a refused call re-raises its error; otherwise the first matching entry, or "symbol not found" |
| BaseBot.BasicBot.SetLeverage | src/base_bot.py:173-181 | the symbol, then the leverage, is checked before any call; then one leverage call and its answer |
| BaseBot.BasicBot.GetOpenOrders | src/base_bot.py:209-225 | an invalid given symbol fails before any call; otherwise one query with the built parameters, and its orders or its re-raised error |
| BaseBot.BasicBot.CancelOrder | src/base_bot.py:239-246 | an invalid symbol fails before any call; otherwise one cancellation and its answer |
| BaseBot.BasicBot.GetPositionInfo | src/base_bot.py:274-293 | an invalid given symbol fails before any call; otherwise one query; a refused query re-raises its error, an accepted one gives the non-zero positions it returns |
| BaseBot.NewBot | src/base_bot.py:14-78 | missing credentials fail before any call; otherwise the server time is read and sets the offset when known; a ping follows, then, if the ping is accepted, an account query; the bot is built exactly when both succeed, and otherwise the failing call's error is raised; testnet is the default |
| MarketOrders.MarketRequest | src/market_orders.py:32-34 | succeeds exactly when symbol, side and quantity all validate, reporting the first failure; the request is exactly the MARKET order with the validated symbol and side and that quantity, with no price, stop price or time in force (lines 51-56) |
| MarketOrders.PlaceMarketOrder | src/market_orders.py:32-74 | nothing is sent for invalid input; otherwise the price is read and, if that succeeds, exactly the MARKET request is sent and its answer returned |
| LimitOrders.LimitRequest | src/limit_orders.py:34-38 | succeeds exactly when all five checks pass, reporting the first failure; the request is a LIMIT order with the validated price and time-in-force |
| LimitOrders.DefaultIsGoodTillCancel | src/limit_orders.py:18 | an omitted time-in-force becomes GTC |
| LimitOrders.PriceDifferencePercent | src/limit_orders.py:49 | fails, with division by zero, exactly when the market price is zero; otherwise it is the percentage distance from the market |
| LimitOrders.PriceDifferenceSign | src/limit_orders.py:49 | against a positive market price the difference is positive, zero or negative as the limit is above, at or below it |
| LimitOrders.PlaceLimitOrder | src/limit_orders.py:34-87 | nothing is sent for invalid input; the price is read; a zero price aborts with division by zero; otherwise exactly the LIMIT request is sent and its answer returned |
| StopLimit.StopLimitArguments | src/advanced/stop_limit.py:40-45 | succeeds exactly when symbol, side, quantity, both prices and time-in-force validate, reporting the first failure in that order |
| StopLimit.TriggerRequest | src/advanced/stop_limit.py:56-84 | accepted exactly when a BUY's stop lies strictly above the market, or a SELL's strictly below; each violation has its own error; the request is a STOP order carrying the limit price, the stop price and the time-in-force |
| StopLimit.LimitPriceNotChecked | src/advanced/stop_limit.py:56-63 | the limit price never affects acceptance; it only appears as the request's price |
| StopLimit.TriggerMonotone | src/advanced/stop_limit.py:56-63 | an accepted trigger stays accepted, with the same request, as the market moves away from it |
| StopLimit.PlaceStopLimitOrder | src/advanced/stop_limit.py:40-105 | nothing is sent for invalid input; the price is read; a trigger on the wrong side fails after that one call; otherwise exactly the STOP request is sent and its answer returned |
| Oco.OcoArguments | src/advanced/oco.py:40-44 | succeeds exactly when symbol, side, quantity and both prices validate, reporting the first failure in that order |
| Oco.CheckAgainstMarket | src/advanced/oco.py:51-59 | a BUY pair always passes; a SELL pair passes exactly when the take-profit lies strictly above the market and the stop-loss strictly below it; each violation has its own error |
| Oco.TakeProfitRequest | src/advanced/oco.py:64-70 | computes the first leg: a TAKE_PROFIT_MARKET order for the quantity, triggered at the take-profit price |
| Oco.StopLossRequest | src/advanced/oco.py:75-81 | computes the second leg: a STOP_MARKET order for the quantity, triggered at the stop-loss price |
| Oco.AcceptedSellBrackets | src/advanced/oco.py:51-59 | an accepted SELL pair brackets the market, so its take-profit trigger lies above its stop-loss trigger |
| Oco.LegsAgree | src/advanced/oco.py:64-81 | the two legs differ only in order type and trigger price, and neither carries a limit price or time-in-force |
| Oco.PlaceOcoOrder | src/advanced/oco.py:40-97 | nothing is sent for invalid input or a failed market check; the take-profit leg goes out first; the stop-loss leg goes out only if the first is accepted; a refused second leg leaves the first in place and reports the error; both answers are returned |
| Twap.PlanTwap | src/advanced/twap.py:38-51 | succeeds exactly when symbol, side and total validate, the number of slices is 2..100, the interval is at least 1 s, and the nominal slice is a valid quantity; each failure is reported in that order |
| Twap.SliceRequest | src/advanced/twap.py:70-85 | computes slice i: a MARKET order of the nominal size, or for the last slice the total minus what has filled |
| Twap.Step | src/advanced/twap.py:80-104 | computes one turn: an accepted slice is kept, its fill added and a wait counted unless it is the last; an API error breaks the loop; any other error escapes |
| Twap.Run | src/advanced/twap.py:65-104 | computes the loop state after k turns, nothing happening after a break or an escape |
| Twap.Outcome | src/advanced/twap.py:119 | computes the return value after the loop: the kept responses, or the escaped error |
| Twap.SumFilled | src/advanced/twap.py:88-89 | computes the running `total_filled`: the sum of the kept responses' executed quantities |
| Twap.NominalSlicesMakeTotal | src/advanced/twap.py:50 | for every plan `PlanTwap` accepts, `count` slices of the nominal size add up to the total |
| Twap.RunShape | src/advanced/twap.py:65-104 | the kept responses are exactly the first accepted answers, in order; the loop stops at the first other answer; an error escapes exactly when that answer was not an API error; the running total is the sum of the kept fills |
| Twap.StoppedStays | src/advanced/twap.py:101-104 | after the break nothing more happens |
| Twap.AcceptedKeepsGoing | src/advanced/twap.py:68-99 | while every answer is an acceptance, the loop does not stop |
| Twap.FirstRejectionStops | src/advanced/twap.py:101-104 | if slice j is the first refused, exactly j+1 requests are sent and the j earlier answers are returned in order |
| Twap.RunLengths | src/advanced/twap.py:65-104 | a run of k turns holds at most k requests; a run that has not stopped holds exactly k requests and k responses and no error; a stopped run has one more request than responses |
| Twap.RunFailure | src/advanced/twap.py:80-104 | a run stops only on an answer that is not an acceptance, and an error escapes exactly when that answer was a transport error, with its message |
| Twap.RunFilled | src/advanced/twap.py:88-89 | the running filled total equals the sum of the kept responses' fills |
| Twap.RunAnswers | src/advanced/twap.py:80-89 | the kept responses are, in order, the accepted answers to the first requests |
| Twap.RunBounds | src/advanced/twap.py:96-99 | at most count responses are kept, and there are never more waits than kept responses, nor more than count-1 |
| Twap.RequestsAreMarket | src/advanced/twap.py:70-85 | in every run, completed or not, each request is a MARKET order for the plan's symbol and side, of the nominal size, except the last slice, which asks for the total minus the fills before it |
| Twap.SumsAgree | src/advanced/twap.py:88-89 | when every fill equals its request, the summed fills equal the summed requests |
| Twap.CompletedRunQuantities | src/advanced/twap.py:70-75 | in a completed run the last slice asks for the total minus the earlier fills, so the requested total is the total plus the earlier slices' shortfall |
| Twap.CompletedRunFillsTotal | src/advanced/twap.py:70-89 | when a completed run's last slice fills what it asked for, the executed total is exactly the total quantity, whatever the earlier fills were |
| Twap.ExactFillsTotal | src/advanced/twap.py:70-89 | if every slice fills exactly, the requests add up to exactly the total |
| Twap.PlaceSlices | src/advanced/twap.py:65-119 | the loop sends exactly the requests `Run` describes and returns its kept responses, or the escaping error, with its count of waits |
| Twap.ExecuteTwapOrder | src/advanced/twap.py:38-119 | nothing is sent, and nothing waited, for an invalid plan; otherwise the slices go out as `PlaceSlices` states |
| Grid.PlanGrid | src/advanced/grid_strategy.py:37-47 | succeeds exactly when the symbol, both bounds and the quantity validate, lower < upper, and there are 2..50 levels; each failure is reported in that order |
| Grid.Levels | src/advanced/grid_strategy.py:57-58 | computes the grid: count levels, level i at lower + i * (upper - lower) / (count - 1) |
| Grid.Wanted | src/advanced/grid_strategy.py:77 | a BUY wants a level strictly below the market price, a SELL one strictly above it (line 97) |
| Grid.LevelRequest | src/advanced/grid_strategy.py:79-86 | computes a level's order: LIMIT, GTC, the plan's symbol and quantity, priced at the level |
| Grid.Pass | src/advanced/grid_strategy.py:76-112 | computes one pass over the levels in order: unwanted levels are passed over, an accepted order is kept, an API error skips the level, any other error ends the pass |
| Grid.WantedCount | src/advanced/grid_strategy.py:76-77 | counts the levels a pass wants; PassCounts, MarketBelowGrid, MarketAboveGrid and SidesPartition state what it bounds |
| Grid.BuyPass | src/advanced/grid_strategy.py:76-92 | the BUY loop: `Pass` for BUY over all the levels, starting at the first order's log position |
| Grid.SellPass | src/advanced/grid_strategy.py:96-112 | the SELL loop: `Pass` for SELL over all the levels, starting after the BUY pass's requests |
| Grid.GridCalls | src/advanced/grid_strategy.py:71-112 | computes the log entries of placing the grid: the BUY requests, then the SELL requests unless an error escaped the BUY pass |
| Grid.GridOutcome | src/advanced/grid_strategy.py:124-128 | computes the return value: the first escaped error, or both passes' accepted orders and all the levels |
| Grid.LevelsSpan | src/advanced/grid_strategy.py:57-58 | there are count levels; the first is the lower bound and the last exactly the upper bound; levels rise strictly |
| Grid.PassOrders | src/advanced/grid_strategy.py:76-112 | a pass sends only LIMIT GTC orders at wanted levels of the grid, for the plan's quantity; over a rising grid they go out in rising price order |
| Grid.PassCounts | src/advanced/grid_strategy.py:90-92 | a pass with no escaping error has tried every wanted level; refused levels are skipped; when every answer is an acceptance, every wanted level has its order |
| Grid.MarketBelowGrid | src/advanced/grid_strategy.py:53-54 | with the market below the grid, no level is bought and every level is offered |
| Grid.MarketAboveGrid | src/advanced/grid_strategy.py:53-54 | with the market above the grid, no level is sold and every level is bid for |
| Grid.SidesPartition | src/advanced/grid_strategy.py:77 | every level except those exactly at the market wants exactly one side |
| Grid.GridStraddlesMarket | src/advanced/grid_strategy.py:76-112 | every BUY request is priced strictly below the market and every SELL request strictly above it; each pass rises in price; all are LIMIT GTC orders at grid levels |
| Grid.PlaceLevels | src/advanced/grid_strategy.py:76-92 | one placement loop sends exactly the requests `Pass` describes and returns the accepted orders, or the escaping error |
| Grid.PlaceGrid | src/advanced/grid_strategy.py:56-128 | the BUY pass, then, unless an error escaped it, the SELL pass; returns every accepted order on each side and all the levels |
| Grid.SetupGridOrders | src/advanced/grid_strategy.py:37-128 | nothing is sent for an invalid plan; the market price is read; the grid is then placed whether the price lies inside the bounds or not |

## Left out

- Building the SDK client: `BaseBot.NewBot` takes the client already built. The model's client carries neither the credentials nor the testnet flag, and a failure in the SDK constructor (src/base_bot.py:33, re-raised at 55-57) is not modelled.
- Logging, coloured console output, the `main()` CLI entry points and the prints: these are display only.
- `get_account_balance` is not modelled: it only reads and formats the account figures.
- The `API_URL` reassignment in the constructor is not modelled.
- `_test_connection`: the model keeps the ping and the account query, and whether they succeed.
  - The balance parsing is left out.
  - A malformed account answer is covered by the account query's failure.
- Numbers are Dafny `real` (exact rational arithmetic), not Python floats.
  - Nothing models binary rounding, NaN or infinities, or `float()`/`int()` parsing of text.
  - The validators take already-numeric inputs.
- Text case mapping is ASCII only; Python's Unicode `upper()` and `lower()` are not modelled beyond it.
  - Whitespace is Python's `str.isspace` set.
- A `None` symbol or side is modelled as the empty string, which Python's `not x` treats the same.
  - `validate_time_in_force(None)` crashes in Python; that case is not modelled.
- The clock is the `localMillis` parameter of `BaseBot.NewBot`, and `time.sleep` is a counter of waits returned by the TWAP methods.
- `KeyboardInterrupt` and other signals are not modelled.
- Response dictionaries are reduced to the fields the bot reads.
  - The printed average TWAP price is not modelled.
  - The `status` and `avgPrice` display logic is not modelled.
- How the exchange fills or matches orders is outside the bot; fills enter only through the scripted `reply` answers.
- The last TWAP slice, total minus the fills so far, is sent without re-validation, as the code does.
  - `Twap.CompletedRunQuantities` states what this leads to when fills differ from the requests.
