# OANDA execution engine: a Dafny model of its core

The engine executes one trading decision against the OANDA brokerage. A
price stream polls bid/ask quotes into a bounded cache. An order manager
sizes a limit or market order from the current price, places it, polls the
broker until the order is filled or cancelled, and can cancel it. A trade
logger turns broker responses into trade-metrics records and reports
slippage and costs.

This project models the core of that engine in Dafny, module by module:

- `Common` (`common.dfy`) holds what the modules share:
  - `Option` and `Result`;
  - the engine's errors;
  - decoded broker payloads (`Value`);
  - Python's `dict.get`, subscripting, `int()`, `float()` and truthiness on those payloads.
- `Utils` (`utils.dfy`, modelling src/utils.py) is pure arithmetic:
  - position sizing, with truncation toward zero, negation for shorts and the JPY pip adjustment;
  - take-profit/stop-loss placement, returned as (tp, sl) with RR = 1;
  - price rounding, as decimal rounding with ties to even.
- `Pricing` (`pricing_stream.dfy`, modelling src/pricing_stream.py) is a class:
  - `PriceStream` has the bounded cache, the current price and the streaming flag as fields;
  - `add_price`, the price wait, `get_spread` and the flag are its methods;
  - the feed loop is a `while` loop over the events the loop meets.
  - The loop is proved against `Run`, a function on values. Lemmas about `Run` give its effect in terms of the quotes the loop adds (`FedQuotes`) and how the loop ends (`FeedEnd`).
- `TradeLog` (`trade_logger.dfy`, modelling src/trade_logger.py) covers the trade-metrics record and everything that derives values from it:
  - the `TradeMetrics` record with its defaults;
  - slippage;
  - the record built from an order response, built step by step in a method;
  - the total-cost and slippage-label expressions of the execution log.
- `Orders` (`order_manager.dfy`, modelling src/order_manager.py) centres on the `OrderManager` class, which holds the order id and status:
  - placing an order, cancelling it, and a polling loop proved against the function `Poll`;
  - the pure rebuild of a filled record from order details.

The system's documented intent differs from its code in several places; the
model follows the code:

- **Placement does not set a status.** Placing an order records the order id and leaves the status alone. The documented intent is that placement moves the order to PENDING, or to FILLED when it fills at once.
- **CANCELLED is not terminal for the poll.** The poll loop runs while the status is not FILLED. Entered after a cancel, it reads again and can still reach FILLED; `Orders.CancelledIsNotAbsorbing` exhibits this. The documented intent treats CANCELLED as final.
- **Cancelling without an order returns a message.** With no order id, cancelling returns "No order to cancel" and makes no call. The documented intent is that it fails with an error.
- **Unknown states do not end the poll.** A read whose state is neither PENDING, CANCELLED nor FILLED changes nothing and the poll reads again.
- **The id/status link does not hold.** After a placement the order id is set while the status can still be NONE.

Two consequences of the code as written are modelled as such:

- **Market orders.** A market order whose response carries no truthy fill transaction raises while its execution is logged, because the absent executed price is formatted. This happens after the order id was recorded.
- **Limit orders.** A limit order logs an execution whenever the response has an `orderFillTransaction` key. When that value is empty, logging raises after the order id was recorded.

## Model

| member | source | states |
|---|---|---|
| Utils.RoundHalfEven | src/utils.py:12 | `round()` to an integer: within a half of its argument, and at an exact half the even neighbour |
| Utils.ConvertToValidFloat | src/utils.py:10-14 | the rounded price is a whole number of 10^-precision steps and lies within half a step of the input |
| Utils.ConvertMonotonic | src/utils.py:10-14 | rounding never reverses the order of two prices |
| Utils.ConvertKeepsGridPrice | src/utils.py:10-14 | a price already on the precision grid is returned unchanged |
| Utils.CalculatePositionSize | src/utils.py:18-32 | sizing fails with a division by zero exactly when sl_pips times the (JPY-adjusted) pip value is zero |
| Utils.LongSizeTruncatesExactUnits | src/utils.py:25-27 | a non-short size is the exact units truncated toward zero: never larger in magnitude, short by less than one unit, same sign |
| Utils.ShortSizeNegatesLong | src/utils.py:25-30 | for identical inputs the "s" size is the exact negation of the "l" size, and both fail together |
| Utils.SizeSignFollowsPosition | src/utils.py:25-30 | with positive inputs a non-short size is never negative and a short size never positive |
| Utils.JpySizingUsesHundredthPip | src/utils.py:22-23 | a JPY instrument is sized as any other instrument with a hundredth of the pip value |
| Utils.PositionSizeExample | src/utils.py:18-32 | 10,000 account, 1% risk, 20 pips at 0.0001 gives 50,000 units long and -50,000 short |
| Common.Trunc | src/utils.py:27 | `int()` on a float: the integer part, rounded toward zero, never larger in magnitude and within one of its argument, with its sign |
| Utils.CalculateTpSlPrices | src/utils.py:35-52 | the (tp, sl) pair is the unrounded pair rounded to the precision grid, each within half a step |
| Utils.LongTpSlBracketEntry | src/utils.py:37-47 | long, before rounding: sl = price - sl_pips*pip, tp = price + sl_pips*RR*pip, and sl < price < tp |
| Utils.ShortTpSlBracketEntry | src/utils.py:37-44 | short, before rounding: sl = price + distance, tp = price - distance, and tp < price < sl |
| Utils.UnroundedTpSl | src/utils.py:37-47 | before rounding, tp lies sl_pips*RR*pip beyond the entry in the trade's direction and sl lies sl_pips*pip behind it; a short mirrors a long |
| Utils.TpSlEquidistant | src/utils.py:37-47 | with RR = 1, tp and sl are equidistant from the entry before rounding |
| Utils.RoundedTpSlBracketEntry | src/utils.py:42-52 | after rounding, an on-grid entry still lies between sl and tp (tp and sl for a short) |
| Utils.TpSlExample | src/utils.py:35-52 | long at 1.1 with 20 pips of 0.0001 and 5 decimals returns (1.102, 1.098), tp first |
| Pricing.NewMarketData | src/pricing_stream.py:47-52 | a quote keeps its bid, ask and timestamp and has spread \|bid - ask\| >= 0 |
| Pricing.LastN | src/pricing_stream.py:33 | a deque of capacity n holds min(n, count) elements |
| Pricing.AppendBelowCapacity | src/pricing_stream.py:54 | below capacity an append keeps every quote and puts the new one last |
| Pricing.AppendToFullDropsOldest | src/pricing_stream.py:54 | appending to a full cache drops exactly the oldest quote, keeps the order of the rest and puts the new one last |
| Pricing.LastNOfLastN | src/pricing_stream.py:33-54 | trimming before further appends changes nothing: the cache holds the last n of everything appended |
| Pricing.AddAllKeepsLastN | src/pricing_stream.py:44-55 | after any sequence of add_price calls the cache is the last n quotes added and its length is min(capacity, number added) |
| Pricing.PriceStream.constructor | src/pricing_stream.py:25-35 | a new stream has an empty cache, no current price and the flag down |
| Pricing.PriceStream.AddPrice | src/pricing_stream.py:44-55 | the cache becomes the window over the old cache plus the new quote, the current price is that quote, and the cache invariant is kept |
| Pricing.PriceStream.GetCurrentPrice | src/pricing_stream.py:58-85 | the latest ask for a long stream, the latest bid otherwise; with no quote, the timeout error |
| Pricing.PriceStream.GetSpread | src/pricing_stream.py:67-70 | never fails: 0 before any quote, the latest quote's spread (>= 0) afterwards |
| Pricing.PriceStream.StartPriceStream | src/pricing_stream.py:89-116 | the loop's effect is `Run` from the old state with the flag raised: the cache gains exactly the rounded quotes fetched before the first stop or failure, the current price is the last of them, the flag stays up unless a stop ended the loop |
| Pricing.PriceStream.FeedPass | src/pricing_stream.py:98-112 | one pass adds the rounded fetched quote, reports a failed fetch without change, or lowers the flag for a stop |
| Pricing.PriceStream.EndPriceStream | src/pricing_stream.py:123-125 | the flag is down afterwards, whatever it was |
| Pricing.Run | src/pricing_stream.py:97-116 | the loop on values: it never overfills a cache within capacity, never raises the flag, and ends Stopped exactly when it leaves the flag down |
| Pricing.RunEndsAsFeed | src/pricing_stream.py:97-116 | the loop ends on the first stop or failed fetch, and the flag is still up unless it was a stop |
| Pricing.RunCachesFedQuotes | src/pricing_stream.py:98-108 | the loop leaves the window over the old cache followed by every quote it fetched |
| Pricing.RunKeepsLastFedQuote | src/pricing_stream.py:98-108 | the loop leaves the last fetched quote current, or the old one if nothing was fetched |
| Pricing.NothingAfterHalt | src/pricing_stream.py:97-116 | once the loop has seen a stop or a failure, nothing later in the feed is added or changes how it ended |
| Pricing.FedQuotesWellFormed | src/pricing_stream.py:101-108 | every quote the loop adds has its derived spread and bid and ask on the precision grid |
| TradeLog.CalculateSlippage | src/trade_logger.py:50-55 | with both prices truthy, pips times pip value is \|exec - req\| and cost is \|exec - req\| * \|units\|; otherwise nothing changes; a zero pip value raises; no other field changes |
| TradeLog.SlippageNonNegative | src/trade_logger.py:53-55 | for a positive pip value both slippage figures are >= 0 |
| TradeLog.SlippageIdempotent | src/trade_logger.py:50-55 | computing slippage a second time changes nothing |
| TradeLog.TotalCost | src/trade_logger.py:161-163 | spread + commission + \|financing\|, plus the slippage cost only when it is truthy |
| TradeLog.TotalCostIgnoresFinancingSign | src/trade_logger.py:161 | financing counts as a cost whichever its sign |
| TradeLog.SlippageAddsItsCost | src/trade_logger.py:137-163 | computing slippage raises the logged total cost by exactly \|exec - req\| * \|units\| |
| TradeLog.SlippageLabel | src/trade_logger.py:151 | GOOD exactly when pips <= 0.5, BAD exactly when 0.5 < pips <= 1.0, the cross exactly above 1.0 |
| TradeLog.LogOrderExecution | src/trade_logger.py:137-152 | logging an execution succeeds exactly when slippage succeeds and an executed price is present, and then yields the slippage result |
| TradeLog.CreateTradeMetricsFromResponse | src/trade_logger.py:260-301 | returns exactly when the response converts; create-transaction fields with defaults '' / 0 / 0; status FILLED iff the fill transaction is truthy, PENDING otherwise; fill fields only from a truthy fill; margin only with a truthy tradeOpened; no slippage yet |
| Orders.PlacedOrderId | src/order_manager.py:90 | the id is the text at orderCreateTransaction.id; a missing section or id raises |
| Orders.OrderState | src/order_manager.py:123 | the state is read from order.state, and a missing one raises |
| Orders.MetricsFromOrderDetails | src/order_manager.py:225-242 | the rebuilt record has status FILLED, reason LIMIT_ORDER, the order's fields with their defaults and no requested price; it raises exactly when a conversion fails |
| Orders.PolledFillLogsCleanly | src/order_manager.py:136-141 | logging a rebuilt fill never raises and computes no slippage |
| Orders.Poll | src/order_manager.py:117-145 | the poll on values: it reads at most the answers given, entered with status FILLED it makes no read, keeps FILLED and returns nothing (and only then returns nothing), a cancel leaves CANCELLED, a fill leaves FILLED, and running out of answers means every answer was read without a fill |
| Orders.StatusAfter | src/order_manager.py:123-126 | a run of open reads leaves PENDING exactly when some read said PENDING, and the starting status otherwise |
| Orders.PollThroughOpenReads | src/order_manager.py:117-145 | reads that are neither CANCELLED nor FILLED never end the poll; the status moves only on PENDING reads |
| Orders.PollStopsAtFirstCancelled | src/order_manager.py:128-131 | the first CANCELLED read sets CANCELLED and ends the poll with that read's details; nothing after it is read |
| Orders.PollStopsAtFirstFilled | src/order_manager.py:133-143 | the first FILLED read sets FILLED and ends the poll with that read's details and its rebuilt record; nothing after it is read |
| Orders.CancelledIsNotAbsorbing | src/order_manager.py:117-133 | a poll entered with status CANCELLED still reads, and PENDING then FILLED leaves FILLED |
| Orders.OrderManager.constructor | src/order_manager.py:34-57 | a new manager has no order id and status NONE |
| Orders.OrderManager.RequestAt | src/order_manager.py:77-84 | the order sent carries the computed position size and the (tp, sl) pair for the entry price; a zero stop distance raises |
| Orders.OrderManager.RequestBracketsEntry | src/order_manager.py:77-84 | a positive stop distance and pip value always give a request, and on an on-grid entry its stop-loss and take-profit lie on either side of it |
| Orders.OrderManager.PlaceLimitOrder | src/order_manager.py:69-110 | no price, a sizing error or a failed call leave the id alone; a response id is recorded even if metrics then raise; the call returns the response exactly when the id reads, the response converts and, if an `orderFillTransaction` key is present, the fill is truthy and slippage does not divide by zero; the status never changes; the logged record is a LIMIT at the quoted price |
| Orders.OrderManager.PlaceMarketOrder | src/order_manager.py:148-206 | as for a limit order, but the execution is always logged: the call returns the response exactly when the id reads, the response converts and the fill is truthy; the logged record is a filled MARKET order without slippage |
| Orders.OrderManager.CheckOrderStatus | src/order_manager.py:113-145 | the loop leaves the status, outcome and read count that `Poll` gives from the starting status |
| Orders.OrderManager.CancelLimitOrder | src/order_manager.py:209-223 | with no id (or an empty one): "No order to cancel", no call, no change; success sets CANCELLED; a failed call returns the error message and leaves the status |

## Left out

- main.py: the race between the user's cancel and the status poll, task cancellation and clean-up, and the menu loop. These are concurrency and console I/O.
- src/oanda_service.py is not part of this model. The brokerage calls are parameters:
  - order creation and cancellation are functions from the request or id to a result;
  - quote fetches and status reads are finite sequences of the answers the loop meets.
- The id passed to `get_order_details` is not modelled: the status answers are those for the current order.
- The logger and CSV I/O are left out: handlers, headers, rows and the log text. The exceptions are the slippage label and the total cost, and the raise when an absent executed price is formatted.
- Clocks, timestamps, execution times, prices-per-second and every sleep are left out. Timestamps and the execution time are parameters.
- Pricing.PriceStream.GetCurrentPrice: nothing writes the cache while the caller waits, so an empty cache always ends in the timeout error. The 10-second wait itself is not modelled.
- Pricing.PriceStream.StartPriceStream: both a failed fetch and a response whose price fields cannot be read are one kind of event. The printed error message is not modelled.
- IEEE floating point is not modelled. Prices and amounts are exact reals, and `round()` is exact decimal rounding with ties to even.
- Payloads are decoded JSON, typed field by field. Fields the code converts with `int()` or `float()` are `Num`, whether sent as numbers or numeric strings. Identifiers, times, reasons, states and instruments are `Text`, digits included. Because of that, `int()` of a decimal numeric string, which Python rejects, is not modelled as an error. JSON null, boolean and array values are not modelled either, so the errors they would raise (a null `stopLossOnFill` has no `get`) are not covered.
- Orders.PlacedOrderId: the broker sends ids as strings, which `str()` keeps. An id sent as a number or a dict is treated as malformed, and its `str()` rendering is not modelled.
- config.json loading, the interactive input helpers and their validation (src/utils.py:55-86) are left out. The instrument symbol, precision and pip value are constructor parameters.
- Utils.ConvertToValidFloat: the unused instrument argument is dropped. Precision is a natural number, so negative precisions are not modelled.
- TradeLog.CalculateSlippage: `TradeMetrics` is a value, so computing slippage returns the updated record instead of changing it in place. Each record belongs to one call and is never shared, so no aliasing is lost.
- The `metrics` timing dictionaries of the stream and the order manager are left out.
