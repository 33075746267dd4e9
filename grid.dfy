/**
 * GridBot.setup_grid_orders: evenly spaced price levels between two bounds, a BUY LIMIT order at
 * every level strictly below the market price and then a SELL LIMIT order at every level strictly
 * above it; a level the exchange refuses is skipped.
 */
module Grid {
  import opened Wrappers
  import opened Errors
  import opened Orders
  import opened Exchange
  import opened Validator
  import opened BaseBot

  const MIN_GRIDS: int := 2
  const MAX_GRIDS: int := 50

  /** The validated arguments of a grid. */
  datatype GridPlan = GridPlan(symbol: string, lower: real, upper: real, count: nat, quantity: real)

  /** What the bot returns: the accepted BUY and SELL orders and every level of the grid. */
  datatype GridResult = GridResult(buyOrders: seq<Response>, sellOrders: seq<Response>, gridLevels: seq<real>)

  /**
   * The checks run in the order symbol, lower price, upper price, quantity, then lower below upper,
   * then at least 2 and at most 50 levels; all of them before the market price is read.
   */
  function PlanGrid(symbol: string, lower: real, upper: real, count: int, quantity: real): (r: Result<GridPlan, Error>)
    ensures r.Ok? <==>
              && ValidateSymbol(symbol).Ok? && 0.0 < lower && 0.0 < upper && ValidateQuantity(quantity).Ok?
              && lower < upper && MIN_GRIDS <= count <= MAX_GRIDS
    ensures ValidateSymbol(symbol).Err? ==> r == Err(ValidateSymbol(symbol).error)
    ensures ValidateSymbol(symbol).Ok? && lower <= 0.0 ==> r == Err(Invalid(NonPositivePrice(lower)))
    ensures ValidateSymbol(symbol).Ok? && 0.0 < lower && upper <= 0.0 ==> r == Err(Invalid(NonPositivePrice(upper)))
    ensures (ValidateSymbol(symbol).Ok? && 0.0 < lower && 0.0 < upper && ValidateQuantity(quantity).Err?) ==>
              r == Err(ValidateQuantity(quantity).error)
    ensures (ValidateSymbol(symbol).Ok? && 0.0 < lower && 0.0 < upper && ValidateQuantity(quantity).Ok?) ==>
              && (upper <= lower ==> r == Err(Invalid(LowerNotBelowUpper)))
              && (lower < upper && count < MIN_GRIDS ==> r == Err(Invalid(TooFewGrids)))
              && (lower < upper && MAX_GRIDS < count ==> r == Err(Invalid(TooManyGrids)))
    ensures r.Ok? ==> r.value == GridPlan(ValidateSymbol(symbol).value, lower, upper, count, quantity)
  {
    var s :- ValidateSymbol(symbol);
    var l :- ValidatePrice(lower);
    var u :- ValidatePrice(upper);
    var q :- ValidateQuantity(quantity);
    if l >= u then Err(Invalid(LowerNotBelowUpper))
    else if count < MIN_GRIDS then Err(Invalid(TooFewGrids))
    else if count > MAX_GRIDS then Err(Invalid(TooManyGrids))
    else Ok(GridPlan(s, l, u, count, q))
  }

  /** The distance between neighbouring levels. */
  function Step(lower: real, upper: real, count: nat): real
    requires 2 <= count
  {
    (upper - lower) / ((count - 1) as real)
  }

  /** The grid: `count` levels, level `i` at `lower + i * step`. */
  function Levels(lower: real, upper: real, count: nat): seq<real>
    requires 2 <= count
  {
    seq(count, i requires 0 <= i < count => lower + (i as real) * Step(lower, upper, count))
  }

  /** The grid starts at the lower bound, ends exactly at the upper one, and rises strictly in between. */
  lemma LevelsSpan(lower: real, upper: real, count: nat)
    requires 2 <= count && lower < upper
    ensures |Levels(lower, upper, count)| == count
    ensures Levels(lower, upper, count)[0] == lower
    ensures Levels(lower, upper, count)[count - 1] == upper
    ensures forall i, j :: 0 <= i < j < count ==> Levels(lower, upper, count)[i] < Levels(lower, upper, count)[j]
  {
    var step := Step(lower, upper, count);
    var c := (count - 1) as real;
    assert step * c == upper - lower;
    assert 0.0 < step;
    forall i, j | 0 <= i < j < count
      ensures Levels(lower, upper, count)[i] < Levels(lower, upper, count)[j]
    {
      assert (i as real) * step < (j as real) * step;
    }
  }

  /** A BUY goes at levels strictly below the market price, a SELL at levels strictly above it. */
  predicate Wanted(side: Side, level: real, current: real) {
    if side == Buy then level < current else current < level
  }

  /** The order a level gets: LIMIT, good till cancel, the plan's symbol and quantity, priced at the level. */
  function LevelRequest(plan: GridPlan, side: Side, level: real): Request {
    Request(plan.symbol, side, Limit, plan.quantity, Some(level), None, Some(GTC))
  }

  /** The state after one pass over some levels: requests issued, accepted orders, and the error that escaped. */
  datatype PassState = PassState(requests: seq<Request>, placed: seq<Response>, failure: Option<Error>)

  /**
   * One pass over `levels` in order for `side`: unwanted levels are passed over, an API error skips
   * the level, any other error ends the pass; the request at log position `base + j` is answered by `reply(base + j)`.
   */
  function Pass(plan: GridPlan, side: Side, current: real, levels: seq<real>, base: nat, reply: nat -> Reply): PassState
    decreases |levels|
  {
    if levels == [] then PassState([], [], None)
    else
      var p := Pass(plan, side, current, levels[..|levels| - 1], base, reply);
      var level := levels[|levels| - 1];
      if p.failure.Some? || !Wanted(side, level, current) then p
      else
        var requests := p.requests + [LevelRequest(plan, side, level)];
        var answer := reply(base + |p.requests|);
        if answer.Accepted? then p.(requests := requests, placed := p.placed + [answer.response])
        else if answer.ApiError? then p.(requests := requests)
        else p.(requests := requests, failure := Some(Transport(answer.message)))
  }

  /** The number of levels a pass for `side` wants. */
  function WantedCount(side: Side, current: real, levels: seq<real>): nat
    decreases |levels|
  {
    if levels == [] then 0
    else WantedCount(side, current, levels[..|levels| - 1]) + (if Wanted(side, levels[|levels| - 1], current) then 1 else 0)
  }

  /** Every request of a pass is the LIMIT order of one of its wanted levels. */
  predicate GridOrder(plan: GridPlan, side: Side, current: real, levels: seq<real>, request: Request) {
    && request == LevelRequest(plan, side, LimitPrice(request))
    && LimitPrice(request) in levels
    && Wanted(side, LimitPrice(request), current)
  }

  /** The limit price of a request (zero for one without). */
  function LimitPrice(request: Request): real {
    request.price.GetOr(0.0)
  }

  /**
   * A pass sends only orders of wanted levels, and, over a strictly rising grid, in rising price
   * order; BUY prices all lie below the market price and SELL prices above it.
   */
  lemma {:induction false} PassOrders(plan: GridPlan, side: Side, current: real, levels: seq<real>, base: nat, reply: nat -> Reply)
    ensures forall t :: 0 <= t < |Pass(plan, side, current, levels, base, reply).requests| ==>
              GridOrder(plan, side, current, levels, Pass(plan, side, current, levels, base, reply).requests[t])
    ensures (forall i, j :: 0 <= i < j < |levels| ==> levels[i] < levels[j]) ==>
              forall s, t :: 0 <= s < t < |Pass(plan, side, current, levels, base, reply).requests| ==>
                LimitPrice(Pass(plan, side, current, levels, base, reply).requests[s])
                < LimitPrice(Pass(plan, side, current, levels, base, reply).requests[t])
    decreases |levels|
  {
    if levels != [] {
      var init := levels[..|levels| - 1];
      var level := levels[|levels| - 1];
      PassOrders(plan, side, current, init, base, reply);
      var p := Pass(plan, side, current, init, base, reply);
      var q := Pass(plan, side, current, levels, base, reply);
      assert forall x :: x in init ==> x in levels;
      if !(p.failure.Some? || !Wanted(side, level, current)) {
        assert q.requests == p.requests + [LevelRequest(plan, side, level)];
        forall t | 0 <= t < |q.requests|
          ensures GridOrder(plan, side, current, levels, q.requests[t])
        {
          if t < |p.requests| {
            assert q.requests[t] == p.requests[t];
          }
        }
        if forall i, j :: 0 <= i < j < |levels| ==> levels[i] < levels[j] {
          forall s, t | 0 <= s < t < |q.requests|
            ensures LimitPrice(q.requests[s]) < LimitPrice(q.requests[t])
          {
            assert q.requests[s] == p.requests[s];
            if t == |p.requests| {
              var x := LimitPrice(p.requests[s]);
              assert x in init;
              var k :| 0 <= k < |init| && init[k] == x;
              assert levels[k] == x;
            } else {
              assert q.requests[t] == p.requests[t];
            }
          }
        }
      }
    }
  }

  /**
   * Refused levels are skipped, not fatal: a pass without an escaping error has tried every wanted
   * level, and when the exchange accepts them all, every wanted level has its order.
   */
  lemma {:induction false} PassCounts(plan: GridPlan, side: Side, current: real, levels: seq<real>, base: nat, reply: nat -> Reply)
    ensures var p := Pass(plan, side, current, levels, base, reply);
            && |p.placed| <= |p.requests| <= WantedCount(side, current, levels)
            && (p.failure.None? ==> |p.requests| == WantedCount(side, current, levels))
    ensures (forall n :: base <= n < base + WantedCount(side, current, levels) ==> reply(n).Accepted?) ==>
              && Pass(plan, side, current, levels, base, reply).failure.None?
              && |Pass(plan, side, current, levels, base, reply).placed| == WantedCount(side, current, levels)
    decreases |levels|
  {
    if levels != [] {
      PassCounts(plan, side, current, levels[..|levels| - 1], base, reply);
    }
  }

  /** With the market below the whole grid nothing is bought and every level is offered for sale. */
  lemma {:induction false} MarketBelowGrid(current: real, levels: seq<real>)
    requires forall i :: 0 <= i < |levels| ==> current < levels[i]
    ensures WantedCount(Buy, current, levels) == 0
    ensures WantedCount(Sell, current, levels) == |levels|
    decreases |levels|
  {
    if levels != [] {
      MarketBelowGrid(current, levels[..|levels| - 1]);
    }
  }

  /** With the market above the whole grid nothing is sold and every level is bid for. */
  lemma {:induction false} MarketAboveGrid(current: real, levels: seq<real>)
    requires forall i :: 0 <= i < |levels| ==> levels[i] < current
    ensures WantedCount(Sell, current, levels) == 0
    ensures WantedCount(Buy, current, levels) == |levels|
    decreases |levels|
  {
    if levels != [] {
      MarketAboveGrid(current, levels[..|levels| - 1]);
    }
  }

  /** A level at the market price gets neither order; every other level wants exactly one of them. */
  lemma {:induction false} SidesPartition(current: real, levels: seq<real>)
    ensures WantedCount(Buy, current, levels) + WantedCount(Sell, current, levels)
            == |levels| - MatchCount(current, levels)
    decreases |levels|
  {
    if levels != [] {
      SidesPartition(current, levels[..|levels| - 1]);
    }
  }

  /** The number of levels equal to `current`. */
  function MatchCount(current: real, levels: seq<real>): nat
    decreases |levels|
  {
    if levels == [] then 0
    else MatchCount(current, levels[..|levels| - 1]) + (if levels[|levels| - 1] == current then 1 else 0)
  }

  /** One pass of the placement loop, as `Pass` describes. */
  method PlaceLevels(bot: BasicBot, plan: GridPlan, side: Side, current: real, levels: seq<real>)
    returns (r: Result<seq<Response>, Error>)
    modifies bot.client`log
    ensures var pass := Pass(plan, side, current, levels, |old(bot.client.log)|, bot.client.reply);
            && bot.client.log == old(bot.client.log) + NewOrders(pass.requests)
            && r == (if pass.failure.Some? then Err(pass.failure.value) else Ok(pass.placed))
  {
    ghost var base := |bot.client.log|;
    ghost var requests: seq<Request> := [];
    var placed: seq<Response> := [];
    var i := 0;
    while i < |levels|
      invariant i <= |levels|
      invariant Pass(plan, side, current, levels[..i], base, bot.client.reply) == PassState(requests, placed, None)
      invariant bot.client.log == old(bot.client.log) + NewOrders(requests)
    {
      var level := levels[i];
      if Wanted(side, level, current) {
        var request := LevelRequest(plan, side, level);
        ghost var reply := bot.client.reply(base + |requests|);
        assert |bot.client.log| == base + |requests|;
        var answer := bot.client.CreateOrder(request);
        assert answer == Answer(reply);
        NewOrdersAppend(requests, [request]);
        LevelTried(plan, side, current, levels, i, base, bot.client.reply, requests, placed);
        if answer.Err? && !answer.error.Api? {
          assert reply.TransportError? && answer.error == Transport(reply.message);
          PassStopped(plan, side, current, levels, i + 1, base, bot.client.reply);
          return Err(answer.error);
        }
        requests := requests + [request];
        if answer.Ok? {
          assert reply.Accepted? && answer.value == reply.response;
          placed := placed + [answer.value];
        } else {
          assert reply.ApiError?;
        }
      } else {
        LevelPassedOver(plan, side, current, levels, i, base, bot.client.reply, requests, placed);
      }
      i := i + 1;
    }
    assert levels[..i] == levels;
    r := Ok(placed);
  }

  /** A level the pass does not want leaves its state as it was. */
  lemma LevelPassedOver(plan: GridPlan, side: Side, current: real, levels: seq<real>, i: nat,
                        base: nat, reply: nat -> Reply, requests: seq<Request>, placed: seq<Response>)
    requires i < |levels| && !Wanted(side, levels[i], current)
    requires Pass(plan, side, current, levels[..i], base, reply) == PassState(requests, placed, None)
    ensures Pass(plan, side, current, levels[..i + 1], base, reply) == PassState(requests, placed, None)
  {
    assert levels[..i + 1][..i] == levels[..i];
  }

  /** A wanted level gets its order; an acceptance is kept, an API error skipped, any other error escapes. */
  lemma LevelTried(plan: GridPlan, side: Side, current: real, levels: seq<real>, i: nat,
                   base: nat, reply: nat -> Reply, requests: seq<Request>, placed: seq<Response>)
    requires i < |levels| && Wanted(side, levels[i], current)
    requires Pass(plan, side, current, levels[..i], base, reply) == PassState(requests, placed, None)
    ensures var answer := reply(base + |requests|);
            var tried := requests + [LevelRequest(plan, side, levels[i])];
            Pass(plan, side, current, levels[..i + 1], base, reply)
            == if answer.Accepted? then PassState(tried, placed + [answer.response], None)
               else if answer.ApiError? then PassState(tried, placed, None)
               else PassState(tried, placed, Some(Transport(answer.message)))
  {
    assert levels[..i + 1][..i] == levels[..i];
  }

  /** Once an error has escaped, the rest of the levels change nothing. */
  lemma {:induction false} PassStopped(plan: GridPlan, side: Side, current: real, levels: seq<real>, k: nat,
                                       base: nat, reply: nat -> Reply)
    requires k <= |levels|
    requires Pass(plan, side, current, levels[..k], base, reply).failure.Some?
    ensures Pass(plan, side, current, levels, base, reply) == Pass(plan, side, current, levels[..k], base, reply)
    decreases |levels| - k
  {
    if k < |levels| {
      var longer := levels[..k + 1];
      assert longer[..k] == levels[..k];
      PassStoppedPrefix(plan, side, current, levels, k, base, reply);
    } else {
      assert levels[..k] == levels;
    }
  }

  lemma {:induction false} PassStoppedPrefix(plan: GridPlan, side: Side, current: real, levels: seq<real>, k: nat,
                                             base: nat, reply: nat -> Reply)
    requires k <= |levels|
    requires Pass(plan, side, current, levels[..k], base, reply).failure.Some?
    ensures Pass(plan, side, current, levels, base, reply) == Pass(plan, side, current, levels[..k], base, reply)
    decreases |levels|
  {
    if k < |levels| {
      var init := levels[..|levels| - 1];
      assert init[..k] == levels[..k];
      PassStoppedPrefix(plan, side, current, init, k, base, reply);
    } else {
      assert levels[..k] == levels;
    }
  }

  /** The BUY pass of a grid whose requests start at log position `start`. */
  function BuyPass(plan: GridPlan, current: real, start: nat, reply: nat -> Reply): PassState
    requires 2 <= plan.count
  {
    Pass(plan, Buy, current, Levels(plan.lower, plan.upper, plan.count), start, reply)
  }

  /** The SELL pass, whose requests follow those of the BUY pass. */
  function SellPass(plan: GridPlan, current: real, start: nat, reply: nat -> Reply): PassState
    requires 2 <= plan.count
  {
    Pass(plan, Sell, current, Levels(plan.lower, plan.upper, plan.count),
         start + |BuyPass(plan, current, start, reply).requests|, reply)
  }

  /** The log entries placing the grid leaves: the BUY requests, then, unless an error escaped them, the SELL requests. */
  function GridCalls(plan: GridPlan, current: real, start: nat, reply: nat -> Reply): seq<Call>
    requires 2 <= plan.count
  {
    var buys := BuyPass(plan, current, start, reply);
    if buys.failure.Some? then NewOrders(buys.requests)
    else NewOrders(buys.requests) + NewOrders(SellPass(plan, current, start, reply).requests)
  }

  /** What placing the grid returns: the first escaping error, or both passes' accepted orders and all the levels. */
  function GridOutcome(plan: GridPlan, current: real, start: nat, reply: nat -> Reply): Result<GridResult, Error>
    requires 2 <= plan.count
  {
    var buys := BuyPass(plan, current, start, reply);
    var sells := SellPass(plan, current, start, reply);
    if buys.failure.Some? then Err(buys.failure.value)
    else if sells.failure.Some? then Err(sells.failure.value)
    else Ok(GridResult(buys.placed, sells.placed, Levels(plan.lower, plan.upper, plan.count)))
  }

  /**
   * Over a valid grid every BUY request is priced strictly below the market price and every SELL
   * request strictly above it, each pass in rising price order, all of them LIMIT GTC orders for
   * the plan's quantity at one of the grid's levels.
   */
  lemma GridStraddlesMarket(plan: GridPlan, current: real, start: nat, reply: nat -> Reply)
    requires MIN_GRIDS <= plan.count && plan.lower < plan.upper
    ensures forall t :: 0 <= t < |BuyPass(plan, current, start, reply).requests| ==>
              && GridOrder(plan, Buy, current, Levels(plan.lower, plan.upper, plan.count),
                           BuyPass(plan, current, start, reply).requests[t])
              && LimitPrice(BuyPass(plan, current, start, reply).requests[t]) < current
    ensures forall t :: 0 <= t < |SellPass(plan, current, start, reply).requests| ==>
              && GridOrder(plan, Sell, current, Levels(plan.lower, plan.upper, plan.count),
                           SellPass(plan, current, start, reply).requests[t])
              && current < LimitPrice(SellPass(plan, current, start, reply).requests[t])
    ensures forall s, t :: 0 <= s < t < |BuyPass(plan, current, start, reply).requests| ==>
              LimitPrice(BuyPass(plan, current, start, reply).requests[s])
              < LimitPrice(BuyPass(plan, current, start, reply).requests[t])
    ensures forall s, t :: 0 <= s < t < |SellPass(plan, current, start, reply).requests| ==>
              LimitPrice(SellPass(plan, current, start, reply).requests[s])
              < LimitPrice(SellPass(plan, current, start, reply).requests[t])
  {
    var levels := Levels(plan.lower, plan.upper, plan.count);
    LevelsSpan(plan.lower, plan.upper, plan.count);
    PassOrders(plan, Buy, current, levels, start, reply);
    PassOrders(plan, Sell, current, levels, start + |BuyPass(plan, current, start, reply).requests|, reply);
  }

  /** The placement after the market price `current` is known, as `GridCalls` and `GridOutcome` describe. */
  method PlaceGrid(bot: BasicBot, plan: GridPlan, current: real) returns (r: Result<GridResult, Error>)
    requires 2 <= plan.count
    modifies bot.client`log
    ensures bot.client.log == old(bot.client.log) + GridCalls(plan, current, |old(bot.client.log)|, bot.client.reply)
    ensures r == GridOutcome(plan, current, |old(bot.client.log)|, bot.client.reply)
  {
    ghost var start := |bot.client.log|;
    var levels := Levels(plan.lower, plan.upper, plan.count);
    ghost var buys := BuyPass(plan, current, start, bot.client.reply);
    ghost var sells := SellPass(plan, current, start, bot.client.reply);
    var buyOrders := PlaceLevels(bot, plan, Buy, current, levels);
    assert bot.client.log == old(bot.client.log) + NewOrders(buys.requests);
    if buyOrders.Err? {
      assert buys.failure.Some? && buyOrders.error == buys.failure.value;
      return Err(buyOrders.error);
    }
    assert buys.failure.None? && buyOrders.value == buys.placed;
    assert |bot.client.log| == start + |buys.requests|;
    var sellOrders := PlaceLevels(bot, plan, Sell, current, levels);
    NewOrdersAppend(buys.requests, sells.requests);
    assert bot.client.log == old(bot.client.log) + NewOrders(buys.requests) + NewOrders(sells.requests);
    if sellOrders.Err? {
      assert sells.failure.Some? && sellOrders.error == sells.failure.value;
      return Err(sellOrders.error);
    }
    assert sells.failure.None? && sellOrders.value == sells.placed;
    r := Ok(GridResult(buyOrders.value, sellOrders.value, levels));
  }

  /**
   * Nothing reaches the exchange unless the plan is valid; then the market price is read, and,
   * if that succeeds, the grid is placed whatever the market price is relative to the bounds
   * (a price outside them only draws a warning in the log).
   */
  method SetupGridOrders(bot: BasicBot, symbol: string, lower: real, upper: real, count: int, quantity: real)
    returns (r: Result<GridResult, Error>)
    modifies bot.client`log
    ensures PlanGrid(symbol, lower, upper, count, quantity).Err? ==>
              r == Err(PlanGrid(symbol, lower, upper, count, quantity).error) && bot.client.log == old(bot.client.log)
    ensures PlanGrid(symbol, lower, upper, count, quantity).Ok? ==>
              var plan := PlanGrid(symbol, lower, upper, count, quantity).value;
              var current := bot.client.PriceOf(plan.symbol, |old(bot.client.log)|);
              if current.Err? then
                bot.client.log == old(bot.client.log) + [Ticker(plan.symbol)] && r == Err(current.error)
              else
                var start := |old(bot.client.log)| + 1;
                && bot.client.log
                   == old(bot.client.log) + [Ticker(plan.symbol)] + GridCalls(plan, current.value, start, bot.client.reply)
                && r == GridOutcome(plan, current.value, start, bot.client.reply)
  {
    var valid := PlanGrid(symbol, lower, upper, count, quantity);
    if valid.Err? {
      return Err(valid.error);
    }
    var current := bot.GetCurrentPrice(valid.value.symbol);
    if current.Err? {
      return Err(current.error);
    }
    r := PlaceGrid(bot, valid.value, current.value);
  }
}
