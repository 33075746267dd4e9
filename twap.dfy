/**
 * TWAPBot.execute_twap_order: a total quantity split into equal MARKET slices sent one after
 * another, the last slice making up whatever the earlier fills left over, stopping at the first
 * rejection. The waits between slices are counted, not timed.
 */
module Twap {
  import opened Wrappers
  import opened Errors
  import opened Orders
  import opened Exchange
  import opened Validator
  import opened BaseBot

  const MIN_ORDERS: int := 2
  const MAX_ORDERS: int := 100
  const MIN_INTERVAL: int := 1

  /** The validated arguments of a run, with the nominal slice size. */
  datatype TwapPlan = TwapPlan(symbol: string, side: Side, total: real, count: nat, interval: int, size: real)

  /**
   * The checks run in the order symbol, side, total, count (at least 2, at most 100), interval
   * (at least 1), and finally the nominal slice total / count must itself be a valid quantity.
   */
  function PlanTwap(symbol: string, side: string, total: real, count: int, interval: int): (r: Result<TwapPlan, Error>)
    ensures r.Ok? <==>
              && ValidateSymbol(symbol).Ok? && ValidateSide(side).Ok? && ValidateQuantity(total).Ok?
              && MIN_ORDERS <= count <= MAX_ORDERS && MIN_INTERVAL <= interval
              && ValidateQuantity(total / (count as real)).Ok?
    ensures ValidateSymbol(symbol).Err? ==> r == Err(ValidateSymbol(symbol).error)
    ensures ValidateSymbol(symbol).Ok? && ValidateSide(side).Err? ==> r == Err(ValidateSide(side).error)
    ensures (ValidateSymbol(symbol).Ok? && ValidateSide(side).Ok? && ValidateQuantity(total).Err?) ==>
              r == Err(ValidateQuantity(total).error)
    ensures (ValidateSymbol(symbol).Ok? && ValidateSide(side).Ok? && ValidateQuantity(total).Ok?) ==>
              && (count < MIN_ORDERS ==> r == Err(Invalid(TooFewOrders)))
              && (MAX_ORDERS < count ==> r == Err(Invalid(TooManyOrders)))
              && (MIN_ORDERS <= count <= MAX_ORDERS && interval < MIN_INTERVAL ==> r == Err(Invalid(IntervalTooShort)))
              && (MIN_ORDERS <= count <= MAX_ORDERS && MIN_INTERVAL <= interval ==>
                    ValidateQuantity(total / (count as real)).Err? ==>
                      r == Err(ValidateQuantity(total / (count as real)).error))
    ensures r.Ok? ==>
              && r.value.symbol == ValidateSymbol(symbol).value && r.value.side == ValidateSide(side).value
              && r.value.total == total && r.value.count == count && r.value.interval == interval
              && r.value.size == total / (count as real) && 0.0 < r.value.size
  {
    var s :- ValidateSymbol(symbol);
    var d :- ValidateSide(side);
    var t :- ValidateQuantity(total);
    if count < MIN_ORDERS then Err(Invalid(TooFewOrders))
    else if count > MAX_ORDERS then Err(Invalid(TooManyOrders))
    else if interval < MIN_INTERVAL then Err(Invalid(IntervalTooShort))
    else
      var size :- ValidateQuantity(t / (count as real));
      Ok(TwapPlan(s, d, t, count, interval, size))
  }

  /** The nominal slices of an accepted plan, `count` of them, add up to the total. */
  lemma NominalSlicesMakeTotal(symbol: string, side: string, total: real, count: int, interval: int)
    ensures var r := PlanTwap(symbol, side, total, count, interval);
            r.Ok? ==> r.value.size * (r.value.count as real) == r.value.total
  {
    var r := PlanTwap(symbol, side, total, count, interval);
    if r.Ok? {
      var c := count as real;
      assert (total / c) * c == total;
    }
  }

  /** Slice `i` is a MARKET order of the nominal size, except the last, which asks for total minus what has filled. */
  function SliceRequest(plan: TwapPlan, i: nat, filled: real): Request {
    var quantity := if i == plan.count - 1 then plan.total - filled else plan.size;
    Request(plan.symbol, plan.side, Market, quantity, None, None, None)
  }

  /**
   * The loop's state after some slices: the requests issued, the responses kept, the running
   * filled total, the waits so far, whether the loop has stopped, and the error that escaped it.
   */
  datatype Progress = Progress(
    requests: seq<Request>,
    executed: seq<Response>,
    filled: real,
    waits: nat,
    stopped: bool,
    failure: Option<Error>)

  /** Slice `i` answered by `answer`: kept and waited after, or the loop breaks (API error) or fails (anything else). */
  function Step(plan: TwapPlan, i: nat, p: Progress, answer: Reply): Progress {
    var requests := p.requests + [SliceRequest(plan, i, p.filled)];
    if answer.Accepted? then
      p.(requests := requests, executed := p.executed + [answer.response],
         filled := p.filled + answer.response.executedQty,
         waits := if i < plan.count - 1 then p.waits + 1 else p.waits)
    else
      p.(requests := requests, stopped := true,
         failure := if answer.ApiError? then None else Some(Transport(answer.message)))
  }

  /** The state after the first `k` turns of the loop, the exchange answering the request at log position `base + j`. */
  function Run(plan: TwapPlan, k: nat, base: nat, reply: nat -> Reply): Progress
    decreases k
  {
    if k == 0 then Progress([], [], 0.0, 0, false, None)
    else
      var p := Run(plan, k - 1, base, reply);
      if p.stopped then p else Step(plan, k - 1, p, reply(base + |p.requests|))
  }

  /** What the call returns after the loop: the kept responses, or the error that escaped. */
  function Outcome(p: Progress): Result<seq<Response>, Error> {
    if p.failure.Some? then Err(p.failure.value) else Ok(p.executed)
  }

  function SumQuantity(requests: seq<Request>): real {
    if requests == [] then 0.0 else SumQuantity(requests[..|requests| - 1]) + requests[|requests| - 1].quantity
  }

  function SumFilled(responses: seq<Response>): real {
    if responses == [] then 0.0 else SumFilled(responses[..|responses| - 1]) + responses[|responses| - 1].executedQty
  }

  /**
   * The kept responses are exactly the answers to the first requests, in order, all accepted; the
   * loop stops at the first answer that is not an acceptance, with an escaping error exactly when
   * that answer was not an API error; the running total is the sum of the kept fills.
   */
  lemma RunShape(plan: TwapPlan, k: nat, base: nat, reply: nat -> Reply)
    ensures var p := Run(plan, k, base, reply);
            && |p.requests| <= k
            && (!p.stopped ==> |p.requests| == k && |p.executed| == k && p.failure.None?)
            && (p.stopped ==> |p.requests| == |p.executed| + 1 && !reply(base + |p.executed|).Accepted?)
            && (p.failure.Some? <==> p.stopped && reply(base + |p.executed|).TransportError?)
            && (p.failure.Some? ==> p.failure.value == Transport(reply(base + |p.executed|).message))
            && p.filled == SumFilled(p.executed)
    ensures forall t :: 0 <= t < |Run(plan, k, base, reply).executed| ==>
              reply(base + t) == Accepted(Run(plan, k, base, reply).executed[t])
  {
    RunLengths(plan, k, base, reply);
    RunFailure(plan, k, base, reply);
    RunFilled(plan, k, base, reply);
    RunAnswers(plan, k, base, reply);
  }

  /** How many requests and responses a run holds, and that only a stopped run can fail. */
  lemma {:induction false} RunLengths(plan: TwapPlan, k: nat, base: nat, reply: nat -> Reply)
    ensures var p := Run(plan, k, base, reply);
            && |p.requests| <= k
            && (!p.stopped ==> |p.requests| == k && |p.executed| == k && p.failure.None?)
            && (p.stopped ==> |p.requests| == |p.executed| + 1)
  {
    if k > 0 {
      RunLengths(plan, k - 1, base, reply);
    }
  }

  /** A run stops on an answer that is not an acceptance, and fails exactly when that answer was a transport error. */
  lemma {:induction false} RunFailure(plan: TwapPlan, k: nat, base: nat, reply: nat -> Reply)
    ensures var p := Run(plan, k, base, reply);
            && (p.stopped ==> !reply(base + |p.executed|).Accepted?)
            && (p.failure.Some? <==> p.stopped && reply(base + |p.executed|).TransportError?)
            && (p.failure.Some? ==> p.failure.value == Transport(reply(base + |p.executed|).message))
  {
    if k > 0 {
      RunFailure(plan, k - 1, base, reply);
      RunLengths(plan, k - 1, base, reply);
      var p := Run(plan, k - 1, base, reply);
      if !p.stopped {
        var answer := reply(base + |p.requests|);
        assert |p.requests| == |p.executed|;
        assert Run(plan, k, base, reply) == Step(plan, k - 1, p, answer);
        if !answer.Accepted? {
          assert Run(plan, k, base, reply).executed == p.executed;
        }
      }
    }
  }

  /** The running filled total is the sum of the kept fills. */
  lemma {:induction false} RunFilled(plan: TwapPlan, k: nat, base: nat, reply: nat -> Reply)
    ensures Run(plan, k, base, reply).filled == SumFilled(Run(plan, k, base, reply).executed)
  {
    if k > 0 {
      RunFilled(plan, k - 1, base, reply);
      var p := Run(plan, k - 1, base, reply);
      if !p.stopped {
        var answer := reply(base + |p.requests|);
        var q := Run(plan, k, base, reply);
        assert q == Step(plan, k - 1, p, answer);
        if answer.Accepted? {
          assert q.executed[..|q.executed| - 1] == p.executed;
        }
      }
    }
  }

  /** The kept responses are the answers to the first requests, in order. */
  lemma {:induction false} RunAnswers(plan: TwapPlan, k: nat, base: nat, reply: nat -> Reply)
    ensures forall t :: 0 <= t < |Run(plan, k, base, reply).executed| ==>
              reply(base + t) == Accepted(Run(plan, k, base, reply).executed[t])
  {
    if k > 0 {
      RunAnswers(plan, k - 1, base, reply);
      RunLengths(plan, k - 1, base, reply);
      var p := Run(plan, k - 1, base, reply);
      if !p.stopped {
        var answer := reply(base + |p.requests|);
        var q := Run(plan, k, base, reply);
        assert q == Step(plan, k - 1, p, answer);
        if answer.Accepted? {
          assert q.executed == p.executed + [answer.response];
          forall t | 0 <= t < |q.executed|
            ensures reply(base + t) == Accepted(q.executed[t])
          {
            if t < |p.executed| {
              assert q.executed[t] == p.executed[t];
            }
          }
        }
      }
    }
  }

  /** Once stopped, the loop does nothing more. */
  lemma {:induction false} StoppedStays(plan: TwapPlan, k: nat, m: nat, base: nat, reply: nat -> Reply)
    requires k <= m && Run(plan, k, base, reply).stopped
    ensures Run(plan, m, base, reply) == Run(plan, k, base, reply)
  {
    if k < m {
      StoppedStays(plan, k, m - 1, base, reply);
    }
  }

  /** While every answer is an acceptance the loop keeps going. */
  lemma {:induction false} AcceptedKeepsGoing(plan: TwapPlan, k: nat, base: nat, reply: nat -> Reply)
    requires forall n :: base <= n < base + k ==> reply(n).Accepted?
    ensures !Run(plan, k, base, reply).stopped
  {
    if k > 0 {
      AcceptedKeepsGoing(plan, k - 1, base, reply);
      RunLengths(plan, k - 1, base, reply);
    }
  }

  /**
   * If slice `j` is the first one the exchange does not accept, exactly `j + 1` requests are issued
   * and the kept responses are the `j` earlier answers, in order.
   */
  lemma FirstRejectionStops(plan: TwapPlan, j: nat, base: nat, reply: nat -> Reply)
    requires j < plan.count
    requires forall n :: base <= n < base + j ==> reply(n).Accepted?
    requires !reply(base + j).Accepted?
    ensures var p := Run(plan, plan.count, base, reply);
            && p.stopped && |p.requests| == j + 1
            && |p.executed| == j
    ensures forall t :: 0 <= t < j ==> Accepted(Run(plan, plan.count, base, reply).executed[t]) == reply(base + t)
  {
    AcceptedKeepsGoing(plan, j, base, reply);
    RunLengths(plan, j, base, reply);
    RunAnswers(plan, j, base, reply);
    var p := Run(plan, j, base, reply);
    var q := Run(plan, j + 1, base, reply);
    assert q == Step(plan, j, p, reply(base + j));
    assert q.stopped && q.requests == p.requests + [SliceRequest(plan, j, p.filled)] && q.executed == p.executed;
    StoppedStays(plan, j + 1, plan.count, base, reply);
  }

  /** At most `count` responses are kept, and at most `count - 1` waits happen, never more than there are kept responses. */
  lemma {:induction false} RunBounds(plan: TwapPlan, k: nat, base: nat, reply: nat -> Reply)
    requires 1 <= k <= plan.count
    ensures var p := Run(plan, k, base, reply);
            && |p.executed| <= k && p.waits <= |p.executed| && p.waits <= k && p.waits <= plan.count - 1
  {
    RunLengths(plan, k, base, reply);
    if k > 1 {
      RunBounds(plan, k - 1, base, reply);
    }
  }

  /**
   * Request `t` of a run whose kept responses are `executed`: a MARKET order for the plan's
   * symbol and side with no price, of the nominal size unless it is the last slice, which asks
   * for the total minus the fills of the `t` slices before it.
   */
  predicate MarketSlice(plan: TwapPlan, t: nat, request: Request, executed: seq<Response>) {
    && request.symbol == plan.symbol && request.side == plan.side
    && request.orderType == Market
    && request.price.None? && request.stopPrice.None? && request.timeInForce.None?
    && t <= |executed|
    && (t < plan.count - 1 ==> request.quantity == plan.size)
    && (t == plan.count - 1 ==> request.quantity == plan.total - SumFilled(executed[..t]))
  }

  /** Every request of the state `p` is a market slice of the plan. */
  predicate MarketSlices(plan: TwapPlan, p: Progress) {
    forall t :: 0 <= t < |p.requests| ==> MarketSlice(plan, t, p.requests[t], p.executed)
  }

  /** Responses kept after request `t` do not change what it was. */
  lemma MarketSliceExtends(plan: TwapPlan, t: nat, request: Request, executed: seq<Response>, more: seq<Response>)
    requires MarketSlice(plan, t, request, executed)
    ensures MarketSlice(plan, t, request, executed + more)
  {
    assert (executed + more)[..t] == executed[..t];
  }

  /**
   * Every request of a run, whether or not the run completes, is a market slice of the plan;
   * in particular the last slice asks for the total minus the earlier fills even when it is refused.
   */
  lemma {:induction false} RequestsAreMarket(plan: TwapPlan, k: nat, base: nat, reply: nat -> Reply)
    ensures MarketSlices(plan, Run(plan, k, base, reply))
  {
    if k > 0 {
      RequestsAreMarket(plan, k - 1, base, reply);
      if Run(plan, k - 1, base, reply).stopped {
        StoppedStays(plan, k - 1, k, base, reply);
      } else {
        TurnKeepsMarketSlices(plan, k, base, reply);
      }
    }
  }

  /** A turn after turns that have not stopped keeps every request a market slice. */
  lemma TurnKeepsMarketSlices(plan: TwapPlan, k: nat, base: nat, reply: nat -> Reply)
    requires 0 < k && !Run(plan, k - 1, base, reply).stopped
    requires MarketSlices(plan, Run(plan, k - 1, base, reply))
    ensures MarketSlices(plan, Run(plan, k, base, reply))
  {
    var p := Run(plan, k - 1, base, reply);
    RunningLengths(plan, k - 1, base, reply);
    StepKeepsMarketSlices(plan, k - 1, p, reply(base + |p.requests|));
    RunTurn(plan, k, base, reply);
  }

  /** A turn after turns that have not stopped is one `Step`. */
  lemma RunTurn(plan: TwapPlan, k: nat, base: nat, reply: nat -> Reply)
    requires 0 < k && !Run(plan, k - 1, base, reply).stopped
    ensures var p := Run(plan, k - 1, base, reply);
            Run(plan, k, base, reply) == Step(plan, k - 1, p, reply(base + |p.requests|))
  {
  }

  /** One more turn after `i` that have not stopped keeps every request a market slice. */
  lemma StepKeepsMarketSlices(plan: TwapPlan, i: nat, p: Progress, answer: Reply)
    requires |p.requests| == |p.executed| == i && p.filled == SumFilled(p.executed)
    requires MarketSlices(plan, p)
    ensures MarketSlices(plan, Step(plan, i, p, answer))
  {
    var q := Step(plan, i, p, answer);
    var more := if answer.Accepted? then [answer.response] else [];
    assert q.requests == p.requests + [SliceRequest(plan, i, p.filled)];
    assert q.executed == p.executed + more;
    forall t | 0 <= t < |q.requests|
      ensures MarketSlice(plan, t, q.requests[t], q.executed)
    {
      if t < |p.requests| {
        assert q.requests[t] == p.requests[t];
        MarketSliceExtends(plan, t, p.requests[t], p.executed, more);
      } else {
        assert q.executed[..t] == p.executed;
      }
    }
  }

  lemma {:induction false} SumsAgree(requests: seq<Request>, responses: seq<Response>)
    requires |requests| == |responses|
    requires forall t :: 0 <= t < |requests| ==> responses[t].executedQty == requests[t].quantity
    ensures SumQuantity(requests) == SumFilled(responses)
  {
    if requests != [] {
      SumsAgree(requests[..|requests| - 1], responses[..|responses| - 1]);
    }
  }

  /**
   * In a run that completes all slices, the quantities asked for add up to the total plus what the
   * earlier slices asked for but did not fill: the last slice makes up every shortfall and gives back every excess.
   */
  lemma CompletedRunQuantities(plan: TwapPlan, base: nat, reply: nat -> Reply)
    requires 1 <= plan.count
    requires !Run(plan, plan.count, base, reply).stopped
    ensures var p := Run(plan, plan.count, base, reply);
            && |p.requests| == |p.executed| == plan.count
            && p.requests[plan.count - 1].quantity == plan.total - SumFilled(p.executed[..plan.count - 1])
            && SumQuantity(p.requests)
               == plan.total + SumQuantity(p.requests[..plan.count - 1]) - SumFilled(p.executed[..plan.count - 1])
  {
    var previous := Run(plan, plan.count - 1, base, reply);
    LastTurn(plan, base, reply);
    LastSlice(plan, previous.requests, previous.executed, reply(base + |previous.requests|),
              Run(plan, plan.count, base, reply));
  }

  /** A run that has not stopped after `k` turns has issued `k` requests and kept `k` responses. */
  lemma RunningLengths(plan: TwapPlan, k: nat, base: nat, reply: nat -> Reply)
    requires !Run(plan, k, base, reply).stopped
    ensures |Run(plan, k, base, reply).requests| == k && |Run(plan, k, base, reply).executed| == k
    ensures Run(plan, k, base, reply).filled == SumFilled(Run(plan, k, base, reply).executed)
  {
    RunLengths(plan, k, base, reply);
    RunFilled(plan, k, base, reply);
  }

  /** The last turn of a run that completes: the last slice was accepted and asked for total minus the earlier fills. */
  lemma LastTurn(plan: TwapPlan, base: nat, reply: nat -> Reply)
    requires 1 <= plan.count
    requires !Run(plan, plan.count, base, reply).stopped
    ensures var previous := Run(plan, plan.count - 1, base, reply);
            && |previous.requests| == |previous.executed| == plan.count - 1
            && reply(base + |previous.requests|).Accepted?
            && Run(plan, plan.count, base, reply).requests
               == previous.requests + [SliceRequest(plan, plan.count - 1, SumFilled(previous.executed))]
            && Run(plan, plan.count, base, reply).executed
               == previous.executed + [reply(base + |previous.requests|).response]
  {
    RunningLengths(plan, plan.count - 1, base, reply);
  }

  /** A run whose last request asks for total minus the earlier fills. */
  lemma LastSlice(plan: TwapPlan, requests: seq<Request>, executed: seq<Response>, answer: Reply, p: Progress)
    requires 1 <= plan.count && |requests| == |executed| == plan.count - 1
    requires p.requests == requests + [SliceRequest(plan, plan.count - 1, SumFilled(executed))]
    requires answer.Accepted? && p.executed == executed + [answer.response]
    ensures && |p.requests| == |p.executed| == plan.count
            && p.requests[plan.count - 1].quantity == plan.total - SumFilled(p.executed[..plan.count - 1])
            && SumQuantity(p.requests)
               == plan.total + SumQuantity(p.requests[..plan.count - 1]) - SumFilled(p.executed[..plan.count - 1])
  {
    assert p.requests[..|requests|] == requests;
    assert p.executed[..|executed|] == executed;
  }

  /** If every slice fills exactly what it asked for, the requested quantities add up to exactly the total. */
  lemma ExactFillsTotal(plan: TwapPlan, base: nat, reply: nat -> Reply)
    requires 1 <= plan.count
    requires !Run(plan, plan.count, base, reply).stopped
    requires var p := Run(plan, plan.count, base, reply);
             forall t :: 0 <= t < |p.requests| && t < |p.executed| ==> p.executed[t].executedQty == p.requests[t].quantity
    ensures SumQuantity(Run(plan, plan.count, base, reply).requests) == plan.total
  {
    CompletedRunQuantities(plan, base, reply);
    var p := Run(plan, plan.count, base, reply);
    var n := plan.count;
    SumsAgree(p.requests[..n - 1], p.executed[..n - 1]);
  }

  /**
   * The remainder slice brings the executed total to exactly the total: in a completed run whose
   * last slice fills what it asked for, the fills add up to the total, whatever the earlier fills were.
   */
  lemma CompletedRunFillsTotal(plan: TwapPlan, base: nat, reply: nat -> Reply)
    requires 1 <= plan.count
    requires !Run(plan, plan.count, base, reply).stopped
    requires var p := Run(plan, plan.count, base, reply);
             |p.executed| == |p.requests| == plan.count
             && p.executed[plan.count - 1].executedQty == p.requests[plan.count - 1].quantity
    ensures Run(plan, plan.count, base, reply).filled == plan.total
  {
    CompletedRunQuantities(plan, base, reply);
    RunFilled(plan, plan.count, base, reply);
    var p := Run(plan, plan.count, base, reply);
    assert SumFilled(p.executed) == SumFilled(p.executed[..plan.count - 1]) + p.executed[plan.count - 1].executedQty;
  }

  /** One more accepted slice after `i` turns that have not stopped. */
  lemma SliceAccepted(plan: TwapPlan, i: nat, base: nat, reply: nat -> Reply,
                      requests: seq<Request>, executed: seq<Response>, filled: real, waits: nat)
    requires Run(plan, i, base, reply) == Progress(requests, executed, filled, waits, false, None)
    requires reply(base + |requests|).Accepted?
    ensures var response := reply(base + |requests|).response;
            Run(plan, i + 1, base, reply)
            == Progress(requests + [SliceRequest(plan, i, filled)], executed + [response],
                        filled + response.executedQty, if i < plan.count - 1 then waits + 1 else waits, false, None)
  {
  }

  /** A refused slice after `i` turns that have not stopped ends the run. */
  lemma SliceRefused(plan: TwapPlan, i: nat, base: nat, reply: nat -> Reply,
                     requests: seq<Request>, executed: seq<Response>, filled: real, waits: nat)
    requires i < plan.count
    requires Run(plan, i, base, reply) == Progress(requests, executed, filled, waits, false, None)
    requires !reply(base + |requests|).Accepted?
    ensures Run(plan, plan.count, base, reply)
            == Progress(requests + [SliceRequest(plan, i, filled)], executed, filled, waits, true,
                        if reply(base + |requests|).ApiError? then None
                        else Some(Transport(reply(base + |requests|).message)))
  {
    assert Run(plan, i + 1, base, reply).stopped;
    StoppedStays(plan, i + 1, plan.count, base, reply);
  }

  /**
   * The loop of a valid plan: the slices go out one by one as `Run` describes, so the log gains
   * exactly the issued requests, the result is the kept responses or the escaping error, and
   * `waits` counts the pauses taken.
   */
  method PlaceSlices(bot: BasicBot, plan: TwapPlan) returns (r: Result<seq<Response>, Error>, waits: nat)
    modifies bot.client`log
    ensures var run := Run(plan, plan.count, |old(bot.client.log)|, bot.client.reply);
            && bot.client.log == old(bot.client.log) + NewOrders(run.requests)
            && r == Outcome(run) && waits == run.waits
  {
    ghost var base := |bot.client.log|;
    var executed: seq<Response> := [];
    var filled := 0.0;
    waits := 0;
    ghost var requests: seq<Request> := [];
    var i: nat := 0;
    while i < plan.count
      invariant i <= plan.count
      invariant Run(plan, i, base, bot.client.reply) == Progress(requests, executed, filled, waits, false, None)
      invariant bot.client.log == old(bot.client.log) + NewOrders(requests)
    {
      var quantity := if i == plan.count - 1 then plan.total - filled else plan.size;
      var request := Request(plan.symbol, plan.side, Market, quantity, None, None, None);
      assert request == SliceRequest(plan, i, filled);
      var answer := bot.client.CreateOrder(request);
      NewOrdersAppend(requests, [request]);
      if answer.Err? {
        SliceRefused(plan, i, base, bot.client.reply, requests, executed, filled, waits);
        requests := requests + [request];
        if answer.error.Api? {
          break;
        }
        return Err(answer.error), waits;
      }
      SliceAccepted(plan, i, base, bot.client.reply, requests, executed, filled, waits);
      requests := requests + [request];
      executed := executed + [answer.value];
      filled := filled + answer.value.executedQty;
      if i < plan.count - 1 {
        waits := waits + 1;
      }
      i := i + 1;
    }
    r := Ok(executed);
  }

  /** Nothing reaches the exchange unless the plan is valid; then the slices go out as `PlaceSlices` describes. */
  method ExecuteTwapOrder(bot: BasicBot, symbol: string, side: string, total: real, count: int, interval: int)
    returns (r: Result<seq<Response>, Error>, waits: nat)
    modifies bot.client`log
    ensures PlanTwap(symbol, side, total, count, interval).Err? ==>
              && r == Err(PlanTwap(symbol, side, total, count, interval).error)
              && waits == 0 && bot.client.log == old(bot.client.log)
    ensures PlanTwap(symbol, side, total, count, interval).Ok? ==>
              var plan := PlanTwap(symbol, side, total, count, interval).value;
              var run := Run(plan, plan.count, |old(bot.client.log)|, bot.client.reply);
              && bot.client.log == old(bot.client.log) + NewOrders(run.requests)
              && r == Outcome(run) && waits == run.waits
  {
    var valid := PlanTwap(symbol, side, total, count, interval);
    if valid.Err? {
      return Err(valid.error), 0;
    }
    r, waits := PlaceSlices(bot, valid.value);
  }
}
