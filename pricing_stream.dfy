/** The bounded price cache and its feed loop (src/pricing_stream.py). */
module Pricing {
  import opened Common
  import Utils

  /** One bid/ask snapshot. The spread is derived once, when the quote is built. */
  datatype MarketData = MarketData(bid: real, ask: real, timestamp: real, spread: real)

  /** The quote `add_price` builds; the clock reading is a parameter. */
  function NewMarketData(bid: real, ask: real, timestamp: real): (q: MarketData)
    ensures q.bid == bid && q.ask == ask && q.timestamp == timestamp
    ensures q.spread >= 0.0 && (q.spread == bid - ask || q.spread == ask - bid)
  {
    MarketData(bid, ask, timestamp, Abs(bid - ask))
  }

  ghost predicate SpreadDerived(q: MarketData) {
    q.spread == Abs(q.bid - q.ask)
  }

  /** What a `deque(maxlen=n)` holds after its elements were `s`: the last
      `n` of them, in order. */
  function LastN<T>(s: seq<T>, n: nat): (r: seq<T>)
    ensures |r| == Min(n, |s|)
  {
    if |s| <= n then s else s[|s| - n..]
  }

  /** Below capacity an append keeps everything and puts the new quote last. */
  lemma AppendBelowCapacity<T>(s: seq<T>, n: nat, x: T)
    requires |s| < n
    ensures LastN(s + [x], n) == s + [x]
  {
  }

  /** Appending to a full cache drops exactly the oldest entry; the others
      keep their order and the new one is last. */
  lemma AppendToFullDropsOldest<T>(s: seq<T>, n: nat, x: T)
    requires |s| == n > 0
    ensures LastN(s + [x], n) == s[1..] + [x]
  {
    assert (s + [x])[1..] == s[1..] + [x];
  }

  /** Trimming to the last `n` elements before more appends changes nothing:
      a cache fed `a` and then `b` holds the last `n` of `a + b`. */
  lemma LastNOfLastN<T>(a: seq<T>, b: seq<T>, n: nat)
    ensures LastN(LastN(a, n) + b, n) == LastN(a + b, n)
  {
    var t := LastN(a, n);
    var k := |a| - |t|;
    assert a == a[..k] + t;
    assert a + b == a[..k] + (t + b);
    var whole, part := a + b, t + b;
    if |t| < n {
      assert t == a;
    } else {
      assert whole[|whole| - n..] == part[|part| - n..];
    }
  }

  /** The cache after `add_price` was called with each of `quotes` in turn. */
  function AddAll<T>(cache: seq<T>, quotes: seq<T>, n: nat): seq<T>
    decreases |quotes|
  {
    if quotes == [] then cache else AddAll(LastN(cache + [quotes[0]], n), quotes[1..], n)
  }

  /** However many quotes are added one by one, the cache holds the last
      `n` of everything added, so its length is the smaller of the capacity
      and the number of quotes it has seen. */
  lemma {:induction false} AddAllKeepsLastN<T>(cache: seq<T>, quotes: seq<T>, n: nat)
    requires |cache| <= n
    ensures AddAll(cache, quotes, n) == LastN(cache + quotes, n)
    ensures |AddAll(cache, quotes, n)| == Min(n, |cache| + |quotes|)
    decreases |quotes|
  {
    if quotes == [] {
      assert cache + quotes == cache;
    } else {
      var q := quotes[0];
      AddAllKeepsLastN(LastN(cache + [q], n), quotes[1..], n);
      LastNOfLastN(cache + [q], quotes[1..], n);
      assert cache + [q] + quotes[1..] == cache + quotes;
    }
  }

  /** What the feed loop meets on one pass: a quote fetched from the
      brokerage (before rounding), a fetch that raised, or `end_price_stream`
      having been called since the loop last checked its flag. */
  datatype FeedEvent = Fetched(bid: real, ask: real, timestamp: real) | FetchFailed(message: string) | StopRequested

  /** How the feed loop ended. `FeedExhausted` is the model's end of input. */
  datatype StreamEnd = Stopped | Failed(message: string) | FeedExhausted

  /** The quotes the feed loop adds: each fetched pair rounded to the
      instrument's precision, up to the first stop or failure. */
  function FedQuotes(feed: seq<FeedEvent>, precision: nat): seq<MarketData> {
    if feed == [] then []
    else match feed[0]
      case Fetched(bid, ask, t) =>
        [Rounded(bid, ask, t, precision)] + FedQuotes(feed[1..], precision)
      case _ => []
  }

  function FeedEnd(feed: seq<FeedEvent>): StreamEnd {
    if feed == [] then FeedExhausted
    else match feed[0]
      case Fetched(_, _, _) => FeedEnd(feed[1..])
      case FetchFailed(m) => Failed(m)
      case StopRequested => Stopped
  }

  /** Once the loop stops or fails, nothing after that point is added and
      nothing after it changes how the loop ended. */
  lemma {:induction false} NothingAfterHalt(before: seq<FeedEvent>, halt: FeedEvent, after: seq<FeedEvent>, precision: nat)
    requires !halt.Fetched?
    ensures FedQuotes(before + [halt] + after, precision) == FedQuotes(before + [halt], precision)
    ensures FeedEnd(before + [halt] + after) == FeedEnd(before + [halt])
  {
    if before == [] {
      assert (before + [halt] + after)[0] == halt;
      assert (before + [halt])[0] == halt;
    } else {
      NothingAfterHalt(before[1..], halt, after, precision);
      assert (before + [halt] + after)[1..] == before[1..] + [halt] + after;
      assert (before + [halt])[1..] == before[1..] + [halt];
    }
  }

  /** Every quote the loop adds carries the spread of its own bid and ask,
      and both sides are whole numbers of price steps. */
  lemma {:induction false} FedQuotesWellFormed(feed: seq<FeedEvent>, precision: nat)
    ensures forall i | 0 <= i < |FedQuotes(feed, precision)| ::
      && SpreadDerived(FedQuotes(feed, precision)[i])
      && Utils.OnGrid(FedQuotes(feed, precision)[i].bid, precision)
      && Utils.OnGrid(FedQuotes(feed, precision)[i].ask, precision)
  {
    if feed != [] && feed[0].Fetched? {
      FedQuotesWellFormed(feed[1..], precision);
    }
  }

  /** What the stream holds between passes of the feed loop. */
  datatype Snapshot = Snapshot(prices: seq<MarketData>, current: Option<MarketData>, streaming: bool)

  /** The quote the loop builds from a fetched pair: both sides rounded to
      the instrument's precision. */
  function Rounded(bid: real, ask: real, timestamp: real, precision: nat): MarketData {
    NewMarketData(Utils.ConvertToValidFloat(precision, bid), Utils.ConvertToValidFloat(precision, ask), timestamp)
  }

  /** The feed loop, pass by pass, on values: the state it leaves and how it ended. */
  function Run(s: Snapshot, feed: seq<FeedEvent>, precision: nat, capacity: nat): (r: (Snapshot, StreamEnd))
    ensures |s.prices| <= capacity ==> |r.0.prices| <= capacity
    ensures r.0.streaming ==> s.streaming
    ensures r.1.Stopped? <==> !r.0.streaming
    decreases |feed|
  {
    if !s.streaming then (s, Stopped)
    else if feed == [] then (s, FeedExhausted)
    else match feed[0]
      case Fetched(bid, ask, t) =>
        var q := Rounded(bid, ask, t, precision);
        Run(Snapshot(LastN(s.prices + [q], capacity), Some(q), true), feed[1..], precision, capacity)
      case FetchFailed(m) => (s, Failed(m))
      case StopRequested => Run(s.(streaming := false), feed[1..], precision, capacity)
  }

  /** With the flag raised, the loop ends as the feed says, and the flag
      is still up unless the loop ended on a stop. */
  lemma {:induction false} RunEndsAsFeed(s: Snapshot, feed: seq<FeedEvent>, precision: nat, capacity: nat)
    requires s.streaming
    ensures Run(s, feed, precision, capacity).1 == FeedEnd(feed)
    ensures Run(s, feed, precision, capacity).0.streaming <==> !FeedEnd(feed).Stopped?
    decreases |feed|
  {
    if feed != [] && feed[0].Fetched? {
      var q := Rounded(feed[0].bid, feed[0].ask, feed[0].timestamp, precision);
      RunEndsAsFeed(Snapshot(LastN(s.prices + [q], capacity), Some(q), true), feed[1..], precision, capacity);
    }
  }

  /** With the flag raised, the loop leaves the cache holding the window
      over the old quotes followed by every fed quote. */
  lemma {:induction false} RunCachesFedQuotes(s: Snapshot, feed: seq<FeedEvent>, precision: nat, capacity: nat)
    requires s.streaming && |s.prices| <= capacity
    ensures Run(s, feed, precision, capacity).0.prices == LastN(s.prices + FedQuotes(feed, precision), capacity)
    decreases |feed|
  {
    if feed != [] && feed[0].Fetched? {
      var q := Rounded(feed[0].bid, feed[0].ask, feed[0].timestamp, precision);
      var rest := FedQuotes(feed[1..], precision);
      assert FedQuotes(feed, precision) == [q] + rest;
      RunCachesFedQuotes(Snapshot(LastN(s.prices + [q], capacity), Some(q), true), feed[1..], precision, capacity);
      LastNOfLastN(s.prices + [q], rest, capacity);
      assert s.prices + [q] + rest == s.prices + ([q] + rest);
    } else {
      assert FedQuotes(feed, precision) == [];
      assert s.prices + [] == s.prices;
    }
  }

  /** With the flag raised, the loop leaves the last fed quote as the
      current price, or the old one when nothing was fed. */
  lemma {:induction false} RunKeepsLastFedQuote(s: Snapshot, feed: seq<FeedEvent>, precision: nat, capacity: nat)
    requires s.streaming
    ensures var fed := FedQuotes(feed, precision);
      Run(s, feed, precision, capacity).0.current == if fed == [] then s.current else Some(fed[|fed| - 1])
    decreases |feed|
  {
    if feed != [] && feed[0].Fetched? {
      var q := Rounded(feed[0].bid, feed[0].ask, feed[0].timestamp, precision);
      var rest := FedQuotes(feed[1..], precision);
      assert FedQuotes(feed, precision) == [q] + rest;
      RunKeepsLastFedQuote(Snapshot(LastN(s.prices + [q], capacity), Some(q), true), feed[1..], precision, capacity);
    }
  }

  class PriceStream {
    const instrument: string
    const position: string
    const precision: nat
    const maxCacheSize: nat
    var prices: seq<MarketData>
    var currentPrice: Option<MarketData>
    var isStreaming: bool

    /** The cache never exceeds its capacity, every quote carries its derived
        spread, and the current price is the last quote cached (when the
        capacity allows any). */
    ghost predicate Valid()
      reads this
    {
      && |prices| <= maxCacheSize
      && (forall i | 0 <= i < |prices| :: SpreadDerived(prices[i]))
      && (currentPrice.Some? ==> SpreadDerived(currentPrice.value))
      && (currentPrice.None? ==> prices == [])
      && (currentPrice.Some? && maxCacheSize > 0 ==> prices != [] && prices[|prices| - 1] == currentPrice.value)
    }

    constructor (instrument: string, position: string, precision: nat, maxCacheSize: nat := 30)
      ensures Valid()
      ensures this.instrument == instrument && this.position == position
      ensures this.precision == precision && this.maxCacheSize == maxCacheSize
      ensures prices == [] && currentPrice == None && !isStreaming
    {
      this.instrument := instrument;
      this.position := position;
      this.precision := precision;
      this.maxCacheSize := maxCacheSize;
      prices := [];
      currentPrice := None;
      isStreaming := false;
    }

    /** `add_price`: cache a new quote and make it the current price. */
    method AddPrice(bid: real, ask: real, timestamp: real)
      requires Valid()
      modifies this`prices, this`currentPrice
      ensures Valid()
      ensures currentPrice == Some(NewMarketData(bid, ask, timestamp))
      ensures prices == LastN(old(prices) + [NewMarketData(bid, ask, timestamp)], maxCacheSize)
    {
      var q := NewMarketData(bid, ask, timestamp);
      prices := LastN(prices + [q], maxCacheSize);
      currentPrice := Some(q);
    }

    /** `get_current_price`. No other activity writes the cache in this
        model, so an empty cache means the wait times out. */
    method GetCurrentPrice() returns (r: Result<real, Error>)
      ensures currentPrice.None? ==> r == Failure(NoPriceData)
      ensures currentPrice.Some? ==> r == Success(if position == "l" then currentPrice.value.ask else currentPrice.value.bid)
    {
      if currentPrice.None? {
        return Failure(NoPriceData);
      }
      r := Success(if position == "l" then currentPrice.value.ask else currentPrice.value.bid);
    }

    /** `get_spread`: never fails; zero before the first quote. */
    function GetSpread(): (s: real)
      reads this
      requires Valid()
      ensures s >= 0.0
      ensures currentPrice.None? ==> s == 0.0
      ensures currentPrice.Some? ==> s == Abs(currentPrice.value.bid - currentPrice.value.ask)
    {
      if currentPrice.Some? then currentPrice.value.spread else 0.0
    }

    /** `start_price_stream`: raise the flag, then add each fetched quote,
        rounded, until the flag is seen lowered or a fetch fails. */
    method StartPriceStream(feed: seq<FeedEvent>) returns (end: StreamEnd)
      requires Valid()
      modifies this`prices, this`currentPrice, this`isStreaming
      ensures Valid()
      ensures (Snapshot(prices, currentPrice, isStreaming), end)
        == Run(Snapshot(old(prices), old(currentPrice), true), feed, precision, maxCacheSize)
      ensures end == FeedEnd(feed)
      ensures isStreaming <==> !end.Stopped?
      ensures prices == LastN(old(prices) + FedQuotes(feed, precision), maxCacheSize)
      ensures var fed := FedQuotes(feed, precision);
              currentPrice == if fed == [] then old(currentPrice) else Some(fed[|fed| - 1])
    {
      isStreaming := true;
      ghost var start := Snapshot(prices, currentPrice, true);
      end := FeedExhausted;
      var i := 0;
      while isStreaming && i < |feed|
        invariant Valid()
        invariant 0 <= i <= |feed|
        invariant end == FeedExhausted
        invariant Run(Snapshot(prices, currentPrice, isStreaming), feed[i..], precision, maxCacheSize)
          == Run(start, feed, precision, maxCacheSize)
        decreases |feed| - i
      {
        assert feed[i..][0] == feed[i] && feed[i..][1..] == feed[i + 1..];
        var failure := FeedPass(feed[i]);
        if failure.Some? {
          end := Failed(failure.value);
          break;
        }
        i := i + 1;
      }
      if !isStreaming {
        end := Stopped;
      } else if i == |feed| {
        assert feed[i..] == [];
      }
      RunEndsAsFeed(start, feed, precision, maxCacheSize);
      RunCachesFedQuotes(start, feed, precision, maxCacheSize);
      RunKeepsLastFedQuote(start, feed, precision, maxCacheSize);
    }

    /** One pass of the feed loop body: add a fetched quote after rounding
        it, report a failed fetch, or lower the flag for a stop. */
    method FeedPass(e: FeedEvent) returns (failure: Option<string>)
      requires Valid()
      modifies this`prices, this`currentPrice, this`isStreaming
      ensures Valid()
      ensures failure == if e.FetchFailed? then Some(e.message) else None
      ensures e.Fetched? ==>
        var q := Rounded(e.bid, e.ask, e.timestamp, precision);
        prices == LastN(old(prices) + [q], maxCacheSize) && currentPrice == Some(q) && isStreaming == old(isStreaming)
      ensures !e.Fetched? ==> prices == old(prices) && currentPrice == old(currentPrice)
      ensures isStreaming == (old(isStreaming) && !e.StopRequested?)
    {
      failure := None;
      match e {
        case Fetched(rawBid, rawAsk, t) =>
          AddPrice(Utils.ConvertToValidFloat(precision, rawBid), Utils.ConvertToValidFloat(precision, rawAsk), t);
        case FetchFailed(m) =>
          failure := Some(m);
        case StopRequested =>
          EndPriceStream();
      }
    }

    /** `end_price_stream`: lower the flag; idempotent. */
    method EndPriceStream()
      modifies this`isStreaming
      ensures !isStreaming
    {
      isStreaming := false;
    }
  }
}
