/** The order lifecycle of one order (src/order_manager.py): placing a limit
    or market order, polling the broker until the order is filled or
    cancelled, and cancelling it. */
module Orders {
  import opened Common
  import opened TradeLog
  import Utils
  import Pricing

  /** `OrderStatus`. */
  datatype OrderStatus = NONE | PENDING | CANCELLED | FILLED

  /** The order bodies handed to the brokerage: a limit order at an entry
      price, or a market order. */
  datatype OrderRequest =
    | LimitRequest(instrument: string, price: real, units: int, takeProfit: real, stopLoss: real)
    | MarketRequest(instrument: string, units: int, takeProfit: real, stopLoss: real)

  /** How a poll of the order ends. `Cancelled` stands for the
      `OrderCancelledException` carrying the details of the read that said so;
      `StillPolling` is the model's end of the broker's answers. */
  datatype PollOutcome =
    | Filled(details: Value, metrics: TradeMetrics)
    | Cancelled(details: Value)
    | Failed(error: Error)
    | StillPolling
    | NothingToPoll

  /** The status a poll leaves, how it ends, and how many reads it made. */
  datatype PollRun = PollRun(status: OrderStatus, outcome: PollOutcome, fetches: nat)

  /** What `cancel_limit_order` returns: the broker's acknowledgement, or a message. */
  datatype CancelReply = Acknowledged(response: Value) | Message(text: string)

  const NoOrderMessage: string := "No order to cancel"
  const CancelErrorPrefix: string := "Error cancelling order: "

  /** `str(order_response["orderCreateTransaction"]["id"])`. The broker
      sends identifiers as strings, so `str()` keeps the text; an id that is
      a number or a dict is treated as malformed. */
  function PlacedOrderId(response: Value): (r: Result<string, Error>)
    ensures r.Success? <==>
      && response.Obj? && "orderCreateTransaction" in response.fields
      && response.fields["orderCreateTransaction"].Obj?
      && "id" in response.fields["orderCreateTransaction"].fields
      && response.fields["orderCreateTransaction"].fields["id"].Text?
    ensures r.Success? ==> Text(r.value) == response.fields["orderCreateTransaction"].fields["id"]
    ensures r.Failure? ==> r.error == Malformed
  {
    var create :- Index(response, "orderCreateTransaction");
    var id :- Index(create, "id");
    if id.Text? then Success(id.s) else Failure(Malformed)
  }

  /** `order_details["order"]["state"]`. */
  function OrderState(details: Value): (r: Result<Value, Error>)
    ensures r.Success? <==> details.Obj? && "order" in details.fields
                            && details.fields["order"].Obj? && "state" in details.fields["order"].fields
    ensures r.Success? ==> r.value == details.fields["order"].fields["state"]
    ensures r.Failure? ==> r.error == Malformed
  {
    var order :- Index(details, "order");
    Index(order, "state")
  }

  /** `details.get("order", {})`. */
  function OrderSection(details: Value): Value {
    Field(details, "order", EmptyObj)
  }

  /** Whether `_create_metrics_from_order_details` returns rather than raises. */
  predicate DetailsConvertible(details: Value) {
    && details.Obj?
    && OrderSection(details).Obj?
    && Field(OrderSection(details), "units", Num(0.0)).Num?
    && NumericField(OrderSection(details), "price")
    && Field(OrderSection(details), "stopLossOnFill", EmptyObj).Obj?
    && NumericField(Field(OrderSection(details), "stopLossOnFill", EmptyObj), "price")
    && Field(OrderSection(details), "takeProfitOnFill", EmptyObj).Obj?
    && NumericField(Field(OrderSection(details), "takeProfitOnFill", EmptyObj), "price")
  }

  /** `_create_metrics_from_order_details`: a filled record rebuilt from the
      order the broker reports. It carries no requested price, so no
      slippage can be computed from it. */
  function MetricsFromOrderDetails(details: Value, position: string): (r: Result<TradeMetrics, Error>)
    ensures r.Success? <==> DetailsConvertible(details)
    ensures r.Failure? ==> r.error == Malformed
    ensures r.Success? ==>
      var m := r.value;
      var order := OrderSection(details);
      && m.orderId == Field(order, "id", Text(""))
      && m.instrument == Field(order, "instrument", Text(""))
      && m.orderType == Field(order, "type", Text(""))
      && m.position == position
      && m.units == Trunc(Field(order, "units", Num(0.0)).r)
      && m.executedPrice == Some(NumberAt(order, "price"))
      && m.stopLossPrice == NumberAt(Field(order, "stopLossOnFill", EmptyObj), "price")
      && m.takeProfitPrice == NumberAt(Field(order, "takeProfitOnFill", EmptyObj), "price")
      && m.status == "FILLED" && m.fillReason == Text("LIMIT_ORDER")
      && m.requestedPrice.None? && m.slippagePips.None? && m.slippageCost.None?
      && m.spreadCost == 0.0 && m.commission == 0.0 && m.financing == 0.0 && m.marginRequired == 0.0
  {
    var order :- Get(details, "order", EmptyObj);
    var units :- ToInt(Field(order, "units", Num(0.0)));
    var executed :- FloatField(order, "price");
    var stopLoss :- FloatField(Field(order, "stopLossOnFill", EmptyObj), "price");
    var takeProfit :- FloatField(Field(order, "takeProfitOnFill", EmptyObj), "price");
    Success(TradeMetrics(
      orderId := Field(order, "id", Text("")),
      instrument := Field(order, "instrument", Text("")),
      orderType := Field(order, "type", Text("")),
      position := position,
      units := units,
      executedPrice := Some(executed),
      stopLossPrice := stopLoss,
      takeProfitPrice := takeProfit,
      status := "FILLED",
      fillReason := Text("LIMIT_ORDER")))
  }

  /** Logging the execution of a polled fill never raises, whatever the pip
      value, and leaves the record as it was built. */
  lemma PolledFillLogsCleanly(details: Value, position: string, pipValue: real)
    requires MetricsFromOrderDetails(details, position).Success?
    ensures var m := MetricsFromOrderDetails(details, position).value;
      LogOrderExecution(m, pipValue) == Success(m)
  {
    var m := MetricsFromOrderDetails(details, position).value;
    assert !HasBothPrices(m);
  }

  /** What a FILLED read leads to: the rebuilt record is logged, or the
      rebuild raises. */
  function FilledOutcome(details: Value, position: string, pipValue: real): PollOutcome {
    match MetricsFromOrderDetails(details, position)
    case Failure(e) => Failed(e)
    case Success(m) =>
      match LogOrderExecution(m, pipValue)
      case Failure(e) => Failed(e)
      case Success(logged) => Filled(details, logged)
  }

  /** `check_order_status` on values: the broker's answers to successive
      reads, from the status the poll starts in. A PENDING read sets PENDING,
      an unrecognised state changes nothing, and both read again; CANCELLED
      and FILLED reads end the poll. */
  function Poll(status: OrderStatus, answers: seq<Result<Value, Error>>, position: string, pipValue: real): (r: PollRun)
    ensures r.fetches <= |answers|
    ensures r.outcome.NothingToPoll? <==> status == FILLED
    ensures status == FILLED ==> r == PollRun(FILLED, NothingToPoll, 0)
    ensures r.outcome.StillPolling? ==> r.fetches == |answers| && r.status != FILLED
    ensures r.outcome.Cancelled? ==> r.status == CANCELLED
    ensures r.outcome.Filled? ==> r.status == FILLED
    decreases |answers|
  {
    if status == FILLED then PollRun(status, NothingToPoll, 0)
    else if answers == [] then PollRun(status, StillPolling, 0)
    else match answers[0]
      case Failure(e) => PollRun(status, Failed(e), 1)
      case Success(details) =>
        match OrderState(details)
        case Failure(e) => PollRun(status, Failed(e), 1)
        case Success(state) =>
          if state == Text("CANCELLED") then PollRun(CANCELLED, Cancelled(details), 1)
          else if state == Text("FILLED") then PollRun(FILLED, FilledOutcome(details, position, pipValue), 1)
          else
            var rest := Poll(if state == Text("PENDING") then PENDING else status, answers[1..], position, pipValue);
            rest.(fetches := rest.fetches + 1)
  }

  /** A read that lets the poll go on: it arrived, its state is readable,
      and it is neither CANCELLED nor FILLED. */
  predicate OpenRead(answer: Result<Value, Error>) {
    && answer.Success?
    && OrderState(answer.value).Success?
    && OrderState(answer.value).value != Text("CANCELLED")
    && OrderState(answer.value).value != Text("FILLED")
  }

  /** A read saying the order is PENDING. */
  predicate PendingRead(answer: Result<Value, Error>) {
    answer.Success? && OrderState(answer.value) == Success(Text("PENDING"))
  }

  /** The status after a run of open reads: PENDING once any of them said
      PENDING, the starting status otherwise. */
  function StatusAfter(status: OrderStatus, answers: seq<Result<Value, Error>>): (s: OrderStatus)
    requires forall k | 0 <= k < |answers| :: OpenRead(answers[k])
    ensures s == PENDING || s == status
    ensures s != status ==> exists k | 0 <= k < |answers| :: PendingRead(answers[k])
    ensures (exists k | 0 <= k < |answers| :: PendingRead(answers[k])) ==> s == PENDING
    decreases |answers|
  {
    if answers == [] then status
    else
      assert forall k | 1 <= k < |answers| :: answers[1..][k - 1] == answers[k];
      StatusAfter(if PendingRead(answers[0]) then PENDING else status, answers[1..])
  }

  /** Open reads never end the poll: each is one more read, and the status
      moves to PENDING only on a PENDING read. */
  lemma {:induction false} PollThroughOpenReads(status: OrderStatus, before: seq<Result<Value, Error>>,
                                                after: seq<Result<Value, Error>>, position: string, pipValue: real)
    requires status != FILLED
    requires forall k | 0 <= k < |before| :: OpenRead(before[k])
    ensures var whole := Poll(status, before + after, position, pipValue);
      var rest := Poll(StatusAfter(status, before), after, position, pipValue);
      whole == rest.(fetches := rest.fetches + |before|)
    decreases |before|
  {
    if before == [] {
      assert before + after == after;
    } else {
      var next := if PendingRead(before[0]) then PENDING else status;
      assert (before + after)[0] == before[0];
      assert (before + after)[1..] == before[1..] + after;
      PollThroughOpenReads(next, before[1..], after, position, pipValue);
    }
  }

  /** The poll stops at the first CANCELLED read: the status becomes
      CANCELLED, the poll ends with that read's details, and nothing after it
      is read. */
  lemma PollStopsAtFirstCancelled(status: OrderStatus, before: seq<Result<Value, Error>>, details: Value,
                                  after: seq<Result<Value, Error>>, position: string, pipValue: real)
    requires status != FILLED
    requires forall k | 0 <= k < |before| :: OpenRead(before[k])
    requires OrderState(details) == Success(Text("CANCELLED"))
    ensures Poll(status, before + [Success(details)] + after, position, pipValue)
         == PollRun(CANCELLED, Cancelled(details), |before| + 1)
  {
    assert before + [Success(details)] + after == before + ([Success(details)] + after);
    PollThroughOpenReads(status, before, [Success(details)] + after, position, pipValue);
  }

  /** The poll stops at the first FILLED read: the status becomes FILLED,
      the poll ends with that read's details, and nothing after it is read. */
  lemma PollStopsAtFirstFilled(status: OrderStatus, before: seq<Result<Value, Error>>, details: Value,
                               after: seq<Result<Value, Error>>, position: string, pipValue: real)
    requires status != FILLED
    requires forall k | 0 <= k < |before| :: OpenRead(before[k])
    requires OrderState(details) == Success(Text("FILLED"))
    ensures var run := Poll(status, before + [Success(details)] + after, position, pipValue);
      && run.status == FILLED && run.fetches == |before| + 1
      && (DetailsConvertible(details) ==> run.outcome == Filled(details, MetricsFromOrderDetails(details, position).value))
      && (!DetailsConvertible(details) ==> run.outcome == Failed(Malformed))
  {
    assert before + [Success(details)] + after == before + ([Success(details)] + after);
    PollThroughOpenReads(status, before, [Success(details)] + after, position, pipValue);
    if DetailsConvertible(details) {
      PolledFillLogsCleanly(details, position, pipValue);
    }
  }

  /** A read with the given state, shaped as the broker's order details. */
  function DetailsWithState(state: string): Value {
    Obj(map["order" := Obj(map["state" := Text(state)])])
  }

  /** A CANCELLED status does not stop a later poll: polling again from
      CANCELLED reads on, and a PENDING then a FILLED read leave FILLED. */
  lemma CancelledIsNotAbsorbing(position: string, pipValue: real)
    ensures Poll(CANCELLED, [Success(DetailsWithState("PENDING")), Success(DetailsWithState("FILLED"))], position, pipValue).status == FILLED
  {
    var answers: seq<Result<Value, Error>> := [Success(DetailsWithState("PENDING")), Success(DetailsWithState("FILLED"))];
    assert OrderState(DetailsWithState("PENDING")) == Success(Text("PENDING"));
    assert OrderState(DetailsWithState("FILLED")) == Success(Text("FILLED"));
    assert answers[1..] == [Success(DetailsWithState("FILLED"))];
  }

  /** The order manager of one order. The brokerage is passed to each
      operation as the function that answers its call; configuration lookups
      are constructor parameters. */
  class OrderManager {
    const stream: Pricing.PriceStream
    const accountSize: real
    const risk: real
    const instrument: string
    const position: string
    const precision: nat
    const pipValue: real
    var orderId: Option<string>
    var orderStatus: OrderStatus

    /** A new manager has no order and status NONE. */
    constructor (stream: Pricing.PriceStream, accountSize: real, risk: real, instrument: string,
                 position: string, precision: nat, pipValue: real)
      ensures this.stream == stream && this.accountSize == accountSize && this.risk == risk
      ensures this.instrument == instrument && this.position == position
      ensures this.precision == precision && this.pipValue == pipValue
      ensures orderId == None && orderStatus == NONE
    {
      this.stream := stream;
      this.accountSize := accountSize;
      this.risk := risk;
      this.instrument := instrument;
      this.position := position;
      this.precision := precision;
      this.pipValue := pipValue;
      orderId := None;
      orderStatus := NONE;
    }

    /** The price `get_current_price` returns for a quote: the ask for a
        stream following a long ("l") position, the bid otherwise. */
    function QuoteOf(q: Pricing.MarketData): real {
      if stream.position == "l" then q.ask else q.bid
    }

    /** The order sent for an entry at `price`: units from the position
        size, and the (tp, sl) pair from the entry price. */
    function RequestAt(limit: bool, price: real, slPips: real): (r: Result<OrderRequest, Error>)
      ensures r.Failure? <==> Utils.CalculatePositionSize(accountSize, instrument, risk, position, slPips, pipValue).Failure?
      ensures r.Failure? ==> r.error == ZeroDivision
      ensures r.Success? ==>
        && r.value.LimitRequest? == limit
        && r.value.instrument == instrument
        && (limit ==> r.value.price == price)
        && r.value.units == Utils.CalculatePositionSize(accountSize, instrument, risk, position, slPips, pipValue).value
        && (r.value.takeProfit, r.value.stopLoss) == Utils.CalculateTpSlPrices(position, price, slPips, pipValue, precision)
    {
      var units :- Utils.CalculatePositionSize(accountSize, instrument, risk, position, slPips, pipValue);
      var (tp, sl) := Utils.CalculateTpSlPrices(position, price, slPips, pipValue, precision);
      if limit then Success(LimitRequest(instrument, price, units, tp, sl))
      else Success(MarketRequest(instrument, units, tp, sl))
    }

    /** On an entry price that is a whole number of price steps (as every
        quote the stream caches is), the rounded levels of a request still
        bracket the entry: below it sits the stop-loss of a long and the
        take-profit of a short. A positive stop distance and pip value always
        give a request. */
    lemma RequestBracketsEntry(limit: bool, price: real, slPips: real)
      requires Utils.OnGrid(price, precision) && slPips > 0.0 && pipValue > 0.0
      ensures RequestAt(limit, price, slPips).Success?
      ensures var request := RequestAt(limit, price, slPips).value;
        if position == "s" then request.takeProfit <= price <= request.stopLoss
        else request.stopLoss <= price <= request.takeProfit
    {
      Utils.RoundedTpSlBracketEntry(position, price, slPips, pipValue, precision);
    }

    /** Whether logging the execution of the record built from a
        convertible `response` returns: the fill carries an executed price,
        and slippage does not divide by a zero pip value. */
    predicate ExecutionLogs(response: Value, requested: Option<real>)
      requires Convertible(response)
    {
      && Truthy(FillSection(response))
      && !(PriceTruthy(requested) && NumberAt(FillSection(response), "price") != 0.0 && pipValue == 0.0)
    }

    /** `place_limit_order`. The order id is recorded as soon as the
        response carries one, even when building or logging its metrics
        raises afterwards; the status is never touched. An execution is
        logged only when the response has an `orderFillTransaction` key. */
    method PlaceLimitOrder(slPips: real, placeOrder: OrderRequest -> Result<Value, Error>, executionTimeMs: real)
      returns (r: Result<Value, Error>, logged: Option<TradeMetrics>)
      modifies this`orderId
      ensures stream.currentPrice.None? ==> r == Failure(NoPriceData) && orderId == old(orderId)
      ensures stream.currentPrice.Some? ==>
        var price := QuoteOf(stream.currentPrice.value);
        var request := RequestAt(true, price, slPips);
        && (request.Failure? ==> r == Failure(ZeroDivision) && orderId == old(orderId))
        && (request.Success? && placeOrder(request.value).Failure? ==>
              r == placeOrder(request.value) && orderId == old(orderId))
        && (request.Success? && placeOrder(request.value).Success? ==>
              var response := placeOrder(request.value).value;
              && (PlacedOrderId(response).Failure? ==> r == Failure(Malformed) && orderId == old(orderId))
              && (PlacedOrderId(response).Success? ==> orderId == Some(PlacedOrderId(response).value))
              && (r.Success? <==>
                    && PlacedOrderId(response).Success? && Convertible(response)
                    && ("orderFillTransaction" in response.fields ==> ExecutionLogs(response, Some(price))))
              && (r.Success? ==> r.value == response))
      ensures r.Success? ==>
        && logged.Some?
        && logged.value.orderType == Text("LIMIT") && logged.value.position == position
        && logged.value.requestedPrice == Some(QuoteOf(stream.currentPrice.value))
        && logged.value.accountBalanceBefore == accountSize && logged.value.executionTimeMs == executionTimeMs
        && (logged.value.status == "FILLED" <==> Truthy(FillSection(r.value)))
    {
      logged := None;
      var price := stream.GetCurrentPrice();
      if price.Failure? {
        return Failure(price.error), None;
      }
      var request := RequestAt(true, price.value, slPips);
      if request.Failure? {
        return Failure(request.error), None;
      }
      var response := placeOrder(request.value);
      if response.Failure? {
        return Failure(response.error), None;
      }
      var id := PlacedOrderId(response.value);
      if id.Failure? {
        return Failure(id.error), None;
      }
      orderId := Some(id.value);
      var metrics := CreateTradeMetricsFromResponse(response.value, "LIMIT", position, Some(price.value),
                                                   executionTimeMs, accountSize);
      if metrics.Failure? {
        return Failure(metrics.error), None;
      }
      var executed := Success(metrics.value);
      if "orderFillTransaction" in response.value.fields {
        executed := LogOrderExecution(metrics.value, pipValue);
      }
      if executed.Failure? {
        return Failure(executed.error), None;
      }
      r, logged := Success(response.value), Some(executed.value);
    }

    /** `place_market_order`. As for a limit order, the id is recorded as
        soon as the response carries one and the status is never touched;
        the execution is always logged, so a response without a truthy fill
        transaction raises after the id was recorded. */
    method PlaceMarketOrder(slPips: real, placeOrder: OrderRequest -> Result<Value, Error>, executionTimeMs: real)
      returns (r: Result<Value, Error>, logged: Option<TradeMetrics>)
      modifies this`orderId
      ensures stream.currentPrice.None? ==> r == Failure(NoPriceData) && orderId == old(orderId)
      ensures stream.currentPrice.Some? ==>
        var price := QuoteOf(stream.currentPrice.value);
        var request := RequestAt(false, price, slPips);
        && (request.Failure? ==> r == Failure(ZeroDivision) && orderId == old(orderId))
        && (request.Success? && placeOrder(request.value).Failure? ==>
              r == placeOrder(request.value) && orderId == old(orderId))
        && (request.Success? && placeOrder(request.value).Success? ==>
              var response := placeOrder(request.value).value;
              && (PlacedOrderId(response).Failure? ==> r == Failure(Malformed) && orderId == old(orderId))
              && (PlacedOrderId(response).Success? ==> orderId == Some(PlacedOrderId(response).value))
              && (r.Success? <==>
                    PlacedOrderId(response).Success? && Convertible(response) && ExecutionLogs(response, None))
              && (r.Success? ==> r.value == response))
      ensures r.Success? ==>
        && Truthy(FillSection(r.value))
        && logged.Some?
        && logged.value.orderType == Text("MARKET") && logged.value.position == position
        && logged.value.requestedPrice.None? && logged.value.status == "FILLED"
        && logged.value.slippagePips.None? && logged.value.slippageCost.None?
        && logged.value.accountBalanceBefore == accountSize && logged.value.executionTimeMs == executionTimeMs
    {
      logged := None;
      var price := stream.GetCurrentPrice();
      if price.Failure? {
        return Failure(price.error), None;
      }
      var request := RequestAt(false, price.value, slPips);
      if request.Failure? {
        return Failure(request.error), None;
      }
      var response := placeOrder(request.value);
      if response.Failure? {
        return Failure(response.error), None;
      }
      var id := PlacedOrderId(response.value);
      if id.Failure? {
        return Failure(id.error), None;
      }
      orderId := Some(id.value);
      var metrics := CreateTradeMetricsFromResponse(response.value, "MARKET", position, None,
                                                   executionTimeMs, accountSize);
      if metrics.Failure? {
        return Failure(metrics.error), None;
      }
      var executed := LogOrderExecution(metrics.value, pipValue);
      if executed.Failure? {
        return Failure(executed.error), None;
      }
      r, logged := Success(response.value), Some(executed.value);
    }

    /** `check_order_status`, over the broker's answers to successive reads:
        the status it leaves, how it ends and how many reads it made are
        those of `Poll` from the status it started in. */
    method CheckOrderStatus(answers: seq<Result<Value, Error>>) returns (outcome: PollOutcome, fetches: nat)
      modifies this`orderStatus
      ensures PollRun(orderStatus, outcome, fetches) == Poll(old(orderStatus), answers, position, pipValue)
    {
      var i := 0;
      while orderStatus != FILLED && i < |answers|
        invariant 0 <= i <= |answers|
        invariant var rest := Poll(orderStatus, answers[i..], position, pipValue);
          Poll(old(orderStatus), answers, position, pipValue) == rest.(fetches := rest.fetches + i)
        decreases |answers| - i
      {
        assert answers[i..][0] == answers[i] && answers[i..][1..] == answers[i + 1..];
        var answer := answers[i];
        if answer.Failure? {
          return Failed(answer.error), i + 1;
        }
        var details := answer.value;
        var state := OrderState(details);
        if state.Failure? {
          return Failed(state.error), i + 1;
        }
        if state.value == Text("PENDING") {
          orderStatus := PENDING;
        }
        if state.value == Text("CANCELLED") {
          orderStatus := CANCELLED;
          return Cancelled(details), i + 1;
        }
        if state.value == Text("FILLED") {
          orderStatus := FILLED;
          var metrics := MetricsFromOrderDetails(details, position);
          if metrics.Failure? {
            return Failed(metrics.error), i + 1;
          }
          var logged := LogOrderExecution(metrics.value, pipValue);
          if logged.Failure? {
            return Failed(logged.error), i + 1;
          }
          return Filled(details, logged.value), i + 1;
        }
        i := i + 1;
      }
      if orderStatus == FILLED {
        outcome := NothingToPoll;
      } else {
        assert answers[i..] == [];
        outcome := StillPolling;
      }
      fetches := i;
    }

    /** `cancel_limit_order`. Without an order id (none, or empty) nothing is
        called and nothing changes; a failing cancel call is reported as a
        message and leaves the status as it was. */
    method CancelLimitOrder(cancelOrder: string -> Result<Value, string>) returns (r: CancelReply, call: Option<string>)
      modifies this`orderStatus
      ensures orderId.None? || orderId.value == "" ==>
        r == Message(NoOrderMessage) && call.None? && orderStatus == old(orderStatus)
      ensures orderId.Some? && orderId.value != "" ==> call == orderId
      ensures call.Some? && cancelOrder(call.value).Success? ==>
        r == Acknowledged(cancelOrder(call.value).value) && orderStatus == CANCELLED
      ensures call.Some? && cancelOrder(call.value).Failure? ==>
        r == Message(CancelErrorPrefix + cancelOrder(call.value).error) && orderStatus == old(orderStatus)
    {
      if orderId.None? || orderId.value == "" {
        return Message(NoOrderMessage), None;
      }
      call := orderId;
      var response := cancelOrder(orderId.value);
      if response.Failure? {
        return Message(CancelErrorPrefix + response.error), call;
      }
      orderStatus := CANCELLED;
      r := Acknowledged(response.value);
    }
  }
}
