/** Trade execution metrics (src/trade_logger.py): the record of one order,
    its slippage, the metrics built from an order response, and the cost
    and slippage figures the execution log reports. */
module TradeLog {
  import opened Common

  /** The `TradeMetrics` dataclass, with its defaults. Identifier, time and
      reason fields hold whatever payload value the response carried. */
  datatype TradeMetrics = TradeMetrics(
    orderId: Value,
    instrument: Value,
    orderType: Value,
    position: string,
    units: int,
    requestedPrice: Option<real> := None,
    executedPrice: Option<real> := None,
    slippagePips: Option<real> := None,
    slippageCost: Option<real> := None,
    stopLossPrice: real := 0.0,
    takeProfitPrice: real := 0.0,
    stopLossPips: real := 0.0,
    riskRewardRatio: real := 2.0,
    executionTimeMs: real := 0.0,
    orderStartTime: Value := Text(""),
    orderFillTime: Value := Text(""),
    spreadCost: real := 0.0,
    commission: real := 0.0,
    financing: real := 0.0,
    accountBalanceBefore: real := 0.0,
    accountBalanceAfter: real := 0.0,
    marginRequired: real := 0.0,
    status: string := "PENDING",
    fillReason: Value := Text(""))

  /** Python truthiness of an optional price: present and non-zero. */
  predicate PriceTruthy(p: Option<real>) {
    p.Some? && p.value != 0.0
  }

  /** Slippage is computed only when both prices are truthy. */
  predicate HasBothPrices(m: TradeMetrics) {
    PriceTruthy(m.requestedPrice) && PriceTruthy(m.executedPrice)
  }

  /** The distance between the executed and the requested price. */
  function PriceGap(m: TradeMetrics): (d: real)
    requires HasBothPrices(m)
    ensures d >= 0.0
    ensures d == m.executedPrice.value - m.requestedPrice.value || d == m.requestedPrice.value - m.executedPrice.value
  {
    Abs(m.executedPrice.value - m.requestedPrice.value)
  }

  /** `calculate_slippage`: with both prices truthy, the gap in pips and the
      gap times the absolute units; otherwise the record is unchanged. A zero
      pip value raises before either field is written. */
  function CalculateSlippage(m: TradeMetrics, pipValue: real): (r: Result<TradeMetrics, Error>)
    ensures r.Failure? <==> HasBothPrices(m) && pipValue == 0.0
    ensures r.Failure? ==> r.error == ZeroDivision
    ensures !HasBothPrices(m) ==> r == Success(m)
    ensures r.Success? ==> r.value.(slippagePips := m.slippagePips, slippageCost := m.slippageCost) == m
    ensures r.Success? && HasBothPrices(m) ==>
      && r.value.slippagePips.Some? && r.value.slippagePips.value * pipValue == PriceGap(m)
      && r.value.slippageCost.Some? && r.value.slippageCost.value == PriceGap(m) * Abs(m.units as real)
  {
    if HasBothPrices(m) then
      if pipValue == 0.0 then Failure(ZeroDivision)
      else
        var gap := PriceGap(m);
        Success(m.(slippagePips := Some(gap / pipValue), slippageCost := Some(gap * Abs(m.units as real))))
    else
      Success(m)
  }

  /** With a positive pip value, computed slippage is never negative. */
  lemma SlippageNonNegative(m: TradeMetrics, pipValue: real)
    requires pipValue > 0.0 && HasBothPrices(m)
    ensures var r := CalculateSlippage(m, pipValue);
      && r.Success?
      && r.value.slippagePips.Some? && r.value.slippagePips.value >= 0.0
      && r.value.slippageCost.Some? && r.value.slippageCost.value >= 0.0
  {
    var p := CalculateSlippage(m, pipValue).value.slippagePips.value;
    assert p == PriceGap(m) / pipValue;
  }

  /** Slippage depends only on the prices and units, which it does not
      change, so computing it twice gives what computing it once gives. */
  lemma SlippageIdempotent(m: TradeMetrics, pipValue: real)
    requires CalculateSlippage(m, pipValue).Success?
    ensures CalculateSlippage(CalculateSlippage(m, pipValue).value, pipValue) == CalculateSlippage(m, pipValue)
  {
    var once := CalculateSlippage(m, pipValue).value;
    if HasBothPrices(m) {
      assert once.requestedPrice == m.requestedPrice && once.executedPrice == m.executedPrice && once.units == m.units;
      var twice := CalculateSlippage(once, pipValue).value;
      assert PriceGap(once) == PriceGap(m);
      SameProductSameFactor(twice.slippagePips.value, once.slippagePips.value, pipValue);
      assert twice.slippagePips == once.slippagePips;
      assert twice.slippageCost.Some? && twice.slippageCost.value == once.slippageCost.value;
      assert twice.slippageCost == once.slippageCost;
      assert twice == twice.(slippagePips := once.slippagePips, slippageCost := once.slippageCost);
    }
  }

  lemma SameProductSameFactor(a: real, b: real, k: real)
    requires k != 0.0 && a * k == b * k
    ensures a == b
  {
    assert (a - b) * k == 0.0;
  }

  /** The total cost the execution log reports: spread, commission and the
      absolute financing, plus the slippage cost when it is truthy. */
  function TotalCost(m: TradeMetrics): (total: real)
    ensures PriceTruthy(m.slippageCost) ==> total == m.spreadCost + m.commission + Abs(m.financing) + m.slippageCost.value
    ensures !PriceTruthy(m.slippageCost) ==> total == m.spreadCost + m.commission + Abs(m.financing)
  {
    var fees := m.spreadCost + m.commission + Abs(m.financing);
    if PriceTruthy(m.slippageCost) then fees + m.slippageCost.value else fees
  }

  /** Financing enters the total as a cost whichever way it was charged. */
  lemma TotalCostIgnoresFinancingSign(m: TradeMetrics)
    ensures TotalCost(m.(financing := -m.financing)) == TotalCost(m)
  {
  }

  /** Computing slippage on a record with none yet recorded raises the
      total cost by exactly the price gap times the absolute units. */
  lemma SlippageAddsItsCost(m: TradeMetrics, pipValue: real)
    requires pipValue != 0.0 && HasBothPrices(m) && m.slippageCost.None?
    ensures CalculateSlippage(m, pipValue).Success?
    ensures TotalCost(CalculateSlippage(m, pipValue).value) == TotalCost(m) + PriceGap(m) * Abs(m.units as real)
  {
    var r := CalculateSlippage(m, pipValue).value;
    var cost := PriceGap(m) * Abs(m.units as real);
    assert r.slippageCost.Some? && r.slippageCost.value == cost;
    assert r.(slippagePips := m.slippagePips, slippageCost := m.slippageCost) == m;
    assert r.spreadCost == m.spreadCost && r.commission == m.commission && r.financing == m.financing;
  }

  const GoodLabel: string := "[GOOD | BELOW 0.5 PIPS]"
  const BadLabel: string := "[BAD | ABOVE 1 PIP]"
  const WorstLabel: string := "\U{274C}"

  /** The label the execution log puts before the slippage figure. */
  function SlippageLabel(pips: real): (text: string)
    ensures text == GoodLabel <==> pips <= 0.5
    ensures text == BadLabel <==> 0.5 < pips <= 1.0
    ensures text == WorstLabel <==> 1.0 < pips
  {
    if pips <= 0.5 then GoodLabel else if pips <= 1.0 then BadLabel else WorstLabel
  }

  /** The part of `log_order_execution` that changes or rejects the record:
      slippage is computed first, and formatting an absent executed price
      raises. */
  function LogOrderExecution(m: TradeMetrics, pipValue: real): (r: Result<TradeMetrics, Error>)
    ensures r.Success? <==> CalculateSlippage(m, pipValue).Success? && m.executedPrice.Some?
    ensures r.Success? ==> r == CalculateSlippage(m, pipValue)
    ensures r.Failure? && HasBothPrices(m) ==> r.error == ZeroDivision
    ensures r.Failure? && !HasBothPrices(m) ==> r.error == Malformed
  {
    var logged :- CalculateSlippage(m, pipValue);
    if logged.executedPrice.None? then Failure(Malformed) else Success(logged)
  }

  /** `order_response.get('orderCreateTransaction', {})`. */
  function CreateSection(response: Value): Value {
    Field(response, "orderCreateTransaction", EmptyObj)
  }

  /** `order_response.get('orderFillTransaction', {})`. */
  function FillSection(response: Value): Value {
    Field(response, "orderFillTransaction", EmptyObj)
  }

  /** `order_fill.get('tradeOpened', {})`. */
  function Opened(fill: Value): Value {
    Field(fill, "tradeOpened", EmptyObj)
  }

  /** The stop-loss or take-profit block of the create transaction, if it is a dict. */
  function OnFill(create: Value, key: string): Value {
    Field(create, key, EmptyObj)
  }

  /** Whether the fill section, when truthy, converts: it is a dict, its
      numeric fields are numbers, and a truthy `tradeOpened` is a dict with a
      numeric margin. */
  predicate FillConvertible(fill: Value) {
    && fill.Obj?
    && NumericField(fill, "price")
    && NumericField(fill, "halfSpreadCost")
    && NumericField(fill, "commission")
    && NumericField(fill, "financing")
    && NumericField(fill, "accountBalance")
    && (Truthy(Opened(fill)) ==> Opened(fill).Obj? && NumericField(Opened(fill), "initialMarginRequired"))
  }

  /** Whether `create_trade_metrics_from_response` returns rather than raises. */
  predicate Convertible(response: Value) {
    && response.Obj?
    && CreateSection(response).Obj?
    && Field(CreateSection(response), "units", Num(0.0)).Num?
    && OnFill(CreateSection(response), "stopLossOnFill").Obj?
    && NumericField(OnFill(CreateSection(response), "stopLossOnFill"), "price")
    && OnFill(CreateSection(response), "takeProfitOnFill").Obj?
    && NumericField(OnFill(CreateSection(response), "takeProfitOnFill"), "price")
    && (Truthy(FillSection(response)) ==> FillConvertible(FillSection(response)))
  }

  /** Whether the response carries a truthy fill with a truthy `tradeOpened`. */
  predicate MarginReported(response: Value) {
    Truthy(FillSection(response)) && Truthy(Opened(FillSection(response)))
  }

  /** `create_trade_metrics_from_response`: the record is built from the
      create transaction, then the fill fields are written when the fill
      transaction is truthy. */
  method CreateTradeMetricsFromResponse(orderResponse: Value, orderType: string, position: string,
                                        requestedPrice: Option<real> := None, executionTimeMs: real := 0.0,
                                        accountBalanceBefore: real := 0.0)
    returns (r: Result<TradeMetrics, Error>)
    ensures r.Success? <==> Convertible(orderResponse)
    ensures r.Failure? ==> r.error == Malformed
    ensures r.Success? ==>
      var m := r.value;
      var create := CreateSection(orderResponse);
      && m.orderId == Field(create, "id", Text(""))
      && m.instrument == Field(create, "instrument", Text(""))
      && m.orderType == Text(orderType) && m.position == position
      && m.units == Trunc(Field(create, "units", Num(0.0)).r)
      && m.requestedPrice == requestedPrice
      && m.stopLossPrice == NumberAt(OnFill(create, "stopLossOnFill"), "price")
      && m.takeProfitPrice == NumberAt(OnFill(create, "takeProfitOnFill"), "price")
      && m.executionTimeMs == executionTimeMs && m.accountBalanceBefore == accountBalanceBefore
      && m.orderStartTime == Field(create, "time", Text(""))
      && m.slippagePips.None? && m.slippageCost.None?
      && m.stopLossPips == 0.0 && m.riskRewardRatio == 2.0
    ensures r.Success? ==>
      var m := r.value;
      var fill := FillSection(orderResponse);
      && (m.status == "FILLED" <==> Truthy(fill))
      && (m.status == "FILLED" || m.status == "PENDING")
      && (!Truthy(fill) ==>
            && m.executedPrice.None? && m.orderFillTime == Text("") && m.fillReason == Text("")
            && m.spreadCost == 0.0 && m.commission == 0.0 && m.financing == 0.0
            && m.accountBalanceAfter == 0.0 && m.marginRequired == 0.0)
      && (Truthy(fill) ==>
            && m.executedPrice == Some(NumberAt(fill, "price"))
            && m.orderFillTime == Field(fill, "time", Text(""))
            && m.fillReason == Field(fill, "reason", Text(""))
            && m.spreadCost == NumberAt(fill, "halfSpreadCost")
            && m.commission == NumberAt(fill, "commission")
            && m.financing == NumberAt(fill, "financing")
            && m.accountBalanceAfter == NumberAt(fill, "accountBalance"))
    ensures r.Success? && MarginReported(orderResponse) ==>
      r.value.marginRequired == NumberAt(Opened(FillSection(orderResponse)), "initialMarginRequired")
    ensures r.Success? && !MarginReported(orderResponse) ==> r.value.marginRequired == 0.0
  {
    var orderCreate :- Get(orderResponse, "orderCreateTransaction", EmptyObj);
    // The response is a dict from here on, so its other `get` cannot raise.
    var orderFill := Field(orderResponse, "orderFillTransaction", EmptyObj);
    var id :- Get(orderCreate, "id", Text(""));
    // Likewise the create transaction.
    var instrument := Field(orderCreate, "instrument", Text(""));
    var units :- ToInt(Field(orderCreate, "units", Num(0.0)));
    var stopLossPrice :- FloatField(Field(orderCreate, "stopLossOnFill", EmptyObj), "price");
    var takeProfitPrice :- FloatField(Field(orderCreate, "takeProfitOnFill", EmptyObj), "price");
    var startTime := Field(orderCreate, "time", Text(""));
    var metrics := TradeMetrics(
      orderId := id,
      instrument := instrument,
      orderType := Text(orderType),
      position := position,
      units := units,
      requestedPrice := requestedPrice,
      stopLossPrice := stopLossPrice,
      takeProfitPrice := takeProfitPrice,
      executionTimeMs := executionTimeMs,
      accountBalanceBefore := accountBalanceBefore,
      orderStartTime := startTime);

    if Truthy(orderFill) {
      var executed :- FloatField(orderFill, "price");
      metrics := metrics.(executedPrice := Some(executed));
      metrics := metrics.(orderFillTime := Field(orderFill, "time", Text("")));
      var spread :- FloatField(orderFill, "halfSpreadCost");
      metrics := metrics.(spreadCost := spread);
      var commission :- FloatField(orderFill, "commission");
      metrics := metrics.(commission := commission);
      var financing :- FloatField(orderFill, "financing");
      metrics := metrics.(financing := financing);
      var balance :- FloatField(orderFill, "accountBalance");
      metrics := metrics.(accountBalanceAfter := balance);

      var tradeOpened := Field(orderFill, "tradeOpened", EmptyObj);
      if Truthy(tradeOpened) {
        var margin :- FloatField(tradeOpened, "initialMarginRequired");
        metrics := metrics.(marginRequired := margin);
      }

      metrics := metrics.(status := "FILLED");
      metrics := metrics.(fillReason := Field(orderFill, "reason", Text("")));
    }
    r := Success(metrics);
  }
}
