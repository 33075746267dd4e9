/**
 * The parameter validator: one total function per check, each either returning the
 * normalised value or failing with the ValidationError reason the source raises.
 */
module Validator {
  import opened Wrappers
  import opened Errors
  import opened Orders
  import Text
  import Config

  const VALID_SIDES: seq<Side> := [Buy, Sell]
  const VALID_ORDER_TYPES: seq<OrderType> := [Market, Limit, StopMarket, StopLimit, TakeProfitMarket]
  const VALID_TIME_IN_FORCE: seq<TimeInForce> := [GTC, IOC, FOK]

  /**
   * The symbol pattern ^[A-Z]{2,10}USDT$: two to ten ASCII capitals followed by "USDT".
   * (Python's `$` also matches before a final newline; the string it is applied to has
   * been stripped, so it never ends with one.)
   */
  predicate IsSymbol(s: string) {
    && 6 <= |s| <= 14
    && s[|s| - 4..] == "USDT"
    && forall i :: 0 <= i < |s| - 4 ==> Text.IsAsciiUpper(s[i])
  }

  /** The text a validator inspects: s.upper().strip(). */
  function Normalize(s: string): string {
    Text.Strip(Text.Upper(s))
  }

  function ValidateSymbol(symbol: string): (r: Result<string, Error>)
    ensures symbol == "" ==> r == Err(Invalid(EmptySymbol))
    ensures r.Ok? <==> symbol != "" && IsSymbol(Normalize(symbol))
    ensures r.Ok? ==> r.value == Normalize(symbol)
    ensures r.Ok? ==> 6 <= |r.value| <= 14 && r.value[|r.value| - 4..] == "USDT"
    ensures r.Err? && symbol != "" ==> r == Err(Invalid(BadSymbolFormat(Normalize(symbol))))
  {
    if symbol == "" then Err(Invalid(EmptySymbol))
    else
      var s := Normalize(symbol);
      if IsSymbol(s) then Ok(s) else Err(Invalid(BadSymbolFormat(s)))
  }

  function ValidateSide(side: string): (r: Result<Side, Error>)
    ensures side == "" ==> r == Err(Invalid(EmptySide))
    ensures r.Ok? <==> side != "" && Normalize(side) in {"BUY", "SELL"}
    ensures r.Ok? ==> r.value in VALID_SIDES && r.value.Name() == Normalize(side)
    ensures r.Err? && side != "" ==> r == Err(Invalid(BadSide(Normalize(side))))
  {
    if side == "" then Err(Invalid(EmptySide))
    else
      var s := Normalize(side);
      if s == "BUY" then Ok(Buy)
      else if s == "SELL" then Ok(Sell)
      else Err(Invalid(BadSide(s)))
  }

  /** The quantity check; `minQty` None stands for Config.MIN_QUANTITY. */
  function ValidateQuantity(quantity: real, minQty: Option<real> := None): (r: Result<real, Error>)
    ensures r.Ok? <==> 0.0 < quantity && minQty.GetOr(Config.MIN_QUANTITY) <= quantity <= Config.MAX_QUANTITY
    ensures r.Ok? ==> r.value == quantity
    ensures quantity <= 0.0 ==> r == Err(Invalid(NonPositiveQuantity(quantity)))
    ensures 0.0 < quantity < minQty.GetOr(Config.MIN_QUANTITY) ==>
              r == Err(Invalid(BelowMinimum(quantity, minQty.GetOr(Config.MIN_QUANTITY))))
    ensures 0.0 < quantity && minQty.GetOr(Config.MIN_QUANTITY) <= quantity && Config.MAX_QUANTITY < quantity ==>
              r == Err(Invalid(AboveMaximum(quantity, Config.MAX_QUANTITY)))
  {
    if quantity <= 0.0 then Err(Invalid(NonPositiveQuantity(quantity)))
    else
      var minimum := minQty.GetOr(Config.MIN_QUANTITY);
      if quantity < minimum then Err(Invalid(BelowMinimum(quantity, minimum)))
      else if quantity > Config.MAX_QUANTITY then Err(Invalid(AboveMaximum(quantity, Config.MAX_QUANTITY)))
      else Ok(quantity)
  }

  function ValidatePrice(price: real): (r: Result<real, Error>)
    ensures r.Ok? <==> 0.0 < price
    ensures r.Ok? ==> r.value == price
    ensures r.Err? ==> r == Err(Invalid(NonPositivePrice(price)))
  {
    if price <= 0.0 then Err(Invalid(NonPositivePrice(price))) else Ok(price)
  }

  /** The order type named by `s`, among the validator's list. */
  function FindOrderType(s: string): (k: Option<OrderType>)
    ensures k.Some? ==> k.value in VALID_ORDER_TYPES && k.value.Name() == s
    ensures k.None? ==> forall t :: t in VALID_ORDER_TYPES ==> t.Name() != s
  {
    if s == "MARKET" then Some(Market)
    else if s == "LIMIT" then Some(Limit)
    else if s == "STOP_MARKET" then Some(StopMarket)
    else if s == "STOP_LIMIT" then Some(StopLimit)
    else if s == "TAKE_PROFIT_MARKET" then Some(TakeProfitMarket)
    else None
  }

  function ValidateOrderType(orderType: string): (r: Result<OrderType, Error>)
    ensures orderType == "" ==> r == Err(Invalid(EmptyOrderType))
    ensures r.Ok? ==> r.value in VALID_ORDER_TYPES && r.value.Name() == Normalize(orderType)
    ensures r.Err? && orderType != "" ==>
              r == Err(Invalid(BadOrderType(Normalize(orderType))))
              && forall t :: t in VALID_ORDER_TYPES ==> t.Name() != Normalize(orderType)
  {
    if orderType == "" then Err(Invalid(EmptyOrderType))
    else
      var s := Normalize(orderType);
      match FindOrderType(s)
      case Some(k) => Ok(k)
      case None => Err(Invalid(BadOrderType(s)))
  }

  function ValidateLeverage(leverage: int): (r: Result<int, Error>)
    ensures r.Ok? <==> 1 <= leverage <= Config.MAX_LEVERAGE
    ensures r.Ok? ==> r.value == leverage
    ensures r.Err? ==> r == Err(Invalid(LeverageOutOfRange(leverage)))
  {
    if leverage < 1 || leverage > Config.MAX_LEVERAGE then Err(Invalid(LeverageOutOfRange(leverage)))
    else Ok(leverage)
  }

  /** The policy named by `s`, among the validator's list. */
  function FindTimeInForce(s: string): (k: Option<TimeInForce>)
    ensures k.Some? <==> s in {"GTC", "IOC", "FOK"}
    ensures k.Some? ==> k.value in VALID_TIME_IN_FORCE && k.value.Name() == s
  {
    if s == "GTC" then Some(GTC)
    else if s == "IOC" then Some(IOC)
    else if s == "FOK" then Some(FOK)
    else None
  }

  /** The time-in-force check; there is no emptiness check before the membership test. */
  function ValidateTimeInForce(timeInForce: string): (r: Result<TimeInForce, Error>)
    ensures r.Ok? <==> Normalize(timeInForce) in {"GTC", "IOC", "FOK"}
    ensures r.Ok? ==> r.value in VALID_TIME_IN_FORCE && r.value.Name() == Normalize(timeInForce)
    ensures r.Err? ==> r == Err(Invalid(BadTimeInForce(Normalize(timeInForce))))
  {
    var s := Normalize(timeInForce);
    match FindTimeInForce(s)
    case Some(k) => Ok(k)
    case None => Err(Invalid(BadTimeInForce(s)))
  }

  /** A string already in normal form: upper case and without surrounding whitespace. */
  lemma NormalizeCanonical(s: string)
    requires Text.NoAsciiLower(s)
    requires s == [] || (!Text.IsSpace(s[0]) && !Text.IsSpace(s[|s| - 1]))
    ensures Normalize(s) == s
  {
    Text.UpperOfUpperCase(s);
    Text.StripUntrimmed(s);
  }

  /** Normalising twice is normalising once. */
  lemma NormalizeIdempotent(s: string)
    ensures Normalize(Normalize(s)) == Normalize(s)
  {
    var u := Text.Upper(s);
    var t := Text.Strip(u);
    assert Text.NoAsciiLower(u);
    Text.StripKeepsUpperCase(u);
    NormalizeCanonical(t);
  }

  /** A symbol already in the exchange's pattern validates to itself. */
  lemma CanonicalSymbolValidates(s: string)
    requires IsSymbol(s)
    ensures ValidateSymbol(s) == Ok(s)
  {
    assert s[|s| - 1] == 'T' by { assert s[|s| - 4..][3] == s[|s| - 1]; }
    assert forall i :: |s| - 4 <= i < |s| ==> s[i] == s[|s| - 4..][i - (|s| - 4)];
    NormalizeCanonical(s);
  }

  /** A validated symbol validates again, unchanged. */
  lemma SymbolIdempotent(symbol: string)
    requires ValidateSymbol(symbol).Ok?
    ensures ValidateSymbol(ValidateSymbol(symbol).value) == ValidateSymbol(symbol)
  {
    CanonicalSymbolValidates(ValidateSymbol(symbol).value);
  }

  /** A non-empty string of whitespace passes the emptiness check and then fails the pattern. */
  lemma BlankSymbolRejected(symbol: string)
    requires symbol != "" && Text.AllSpace(symbol)
    ensures ValidateSymbol(symbol) == Err(Invalid(BadSymbolFormat("")))
  {
    Text.UpperKeepsSpaces(symbol);
    Text.StripAllSpace(Text.Upper(symbol));
  }

  /** Upper-casing the input first makes no difference to any outcome of validate_side. */
  lemma SideIgnoresCase(side: string)
    ensures ValidateSide(Text.Upper(side)) == ValidateSide(side)
  {
    Text.UpperIdempotent(side);
    Text.UpperEmpty(side);
  }

  /** Whitespace around a non-empty side makes no difference to any outcome of validate_side. */
  lemma SideIgnoresPadding(w1: string, side: string, w2: string)
    requires side != "" && Text.AllSpace(w1) && Text.AllSpace(w2)
    ensures ValidateSide(w1 + side + w2) == ValidateSide(side)
  {
    Text.UpperConcat(w1 + side, w2);
    Text.UpperConcat(w1, side);
    Text.UpperKeepsSpaces(w1);
    Text.UpperKeepsSpaces(w2);
    Text.StripPadded(Text.Upper(w1), Text.Upper(side), Text.Upper(w2));
  }

  /** validate_side inverts Side.Name. */
  lemma SideRoundTrip(side: Side)
    ensures ValidateSide(side.Name()) == Ok(side)
  {
    NormalizeCanonical(side.Name());
  }

  /** A string without lower-case letters that neither starts nor ends with whitespace. */
  predicate Canonical(s: string) {
    Text.NoAsciiLower(s) && (s == [] || (!Text.IsSpace(s[0]) && !Text.IsSpace(s[|s| - 1])))
  }

  lemma OrderTypeNameCanonical(orderType: OrderType)
    ensures Canonical(orderType.Name())
  {
  }

  lemma TimeInForceNameCanonical(tif: TimeInForce)
    ensures Canonical(tif.Name())
  {
  }

  /** validate_order_type inverts OrderType.Name on the validator's list, and rejects STOP. */
  lemma OrderTypeRoundTrip(orderType: OrderType)
    ensures orderType in VALID_ORDER_TYPES ==> ValidateOrderType(orderType.Name()) == Ok(orderType)
    ensures orderType == Stop ==> ValidateOrderType(orderType.Name()).Err?
  {
    var name := orderType.Name();
    OrderTypeNameCanonical(orderType);
    NormalizeCanonical(name);
    assert FindOrderType(name) == if orderType == Stop then None else Some(orderType);
  }

  /** validate_time_in_force inverts TimeInForce.Name. */
  lemma TimeInForceRoundTrip(tif: TimeInForce)
    ensures ValidateTimeInForce(tif.Name()) == Ok(tif)
  {
    var name := tif.Name();
    TimeInForceNameCanonical(tif);
    NormalizeCanonical(name);
    assert FindTimeInForce(name) == Some(tif);
  }

  /** The empty string reaches the membership test and fails there. */
  lemma EmptyTimeInForceRejected()
    ensures ValidateTimeInForce("") == Err(Invalid(BadTimeInForce("")))
  {
    Text.StripUntrimmed("");
  }

  /** With the configured minimum, an accepted quantity lies in [MIN_QUANTITY, MAX_QUANTITY]. */
  lemma QuantityWithinConfiguredBounds(quantity: real)
    requires ValidateQuantity(quantity).Ok?
    ensures Config.MIN_QUANTITY <= ValidateQuantity(quantity).value <= Config.MAX_QUANTITY
  {
  }

  /**
   * Both quantity bounds are inclusive and the leverage range is 1..MAX_LEVERAGE inclusive; the
   * default leverage is itself accepted, and the nearest values outside each range are refused.
   */
  lemma ConfiguredBoundsInclusive()
    ensures ValidateQuantity(Config.MIN_QUANTITY) == Ok(Config.MIN_QUANTITY)
    ensures ValidateQuantity(Config.MAX_QUANTITY) == Ok(Config.MAX_QUANTITY)
    ensures ValidateQuantity(Config.MIN_QUANTITY / 2.0).Err?
    ensures ValidateQuantity(Config.MAX_QUANTITY + 1.0).Err?
    ensures ValidateLeverage(Config.DEFAULT_LEVERAGE) == Ok(Config.DEFAULT_LEVERAGE)
    ensures ValidateLeverage(1).Ok? && ValidateLeverage(Config.MAX_LEVERAGE).Ok?
    ensures ValidateLeverage(0).Err? && ValidateLeverage(Config.MAX_LEVERAGE + 1).Err?
  {
  }
}
