/** The gold quote cache of the backend: the module-level record
    `{pricePerGramUSD, fetchedAt}` and the function that serves a price per
    gram from it, refreshing it from the spot-price feed when it is stale.
    The clock and the feed are inputs: `now` is the millisecond timestamp and
    `Feed` is what the feed request would produce if it were made. */
module QuoteCache {
  import opened Js

  /** Time-to-live of a cached quote: five minutes, in milliseconds. */
  const TTL_MS: int := 5 * 60 * 1000

  /** USD per gram used when the feed gives no usable shape and nothing is cached. */
  const FALLBACK_USD_PER_GRAM: real := 75.0

  /** Grams in one troy ounce. */
  const GRAMS_PER_TROY_OUNCE: real := 31.1034768

  /** The body of a feed response, classified by the shape test of the
      fetcher. The number in `FirstPair` is the second component of the
      first element after `Number(...)` (NaN when that component is
      missing); the number in `FirstScalar` is the first element after
      `Number(...)`. */
  datatype Payload = NotArray | EmptyArray | FirstPair(second: Number) | FirstScalar(first: Number)

  /** The outcome of the feed request: it throws, or it delivers a payload. */
  datatype Feed = Throws | Responds(data: Payload)

  /** The cache record: `pricePerGramUSD` starts out as `null` (None). */
  datatype State = State(pricePerGramUSD: Option<Number>, fetchedAt: int)

  /** What one call produces: the price per gram it returns and the cache
      record it leaves behind. */
  datatype Served = Served(price: Number, cache: State)

  const INITIAL: State := State(None, 0)

  /** The cached value counts only when it is truthy: a cached 0 or NaN is
      treated exactly like no cached value. */
  predicate HasQuote(c: Option<Number>) {
    c.Some? && c.value.Truthy()
  }

  /** The cache-hit test: a truthy cached value younger than the TTL. */
  predicate Fresh(s: State, now: int)
    ensures Fresh(s, now) ==> s.pricePerGramUSD.Some? && s.pricePerGramUSD.value.Num? && s.pricePerGramUSD.value.r != 0.0
    ensures now >= s.fetchedAt + TTL_MS ==> !Fresh(s, now)
  {
    HasQuote(s.pricePerGramUSD) && now - s.fetchedAt < TTL_MS
  }

  /** The price per gram the fetcher derives from a payload: the ounce price
      divided by the troy-ounce constant, or the fallback constant when the
      payload is not a non-empty array. */
  function PerGram(data: Payload): (g: Number)
    ensures (data.NotArray? || data.EmptyArray?) ==> g == Num(FALLBACK_USD_PER_GRAM)
    ensures data.FirstPair? ==> (g.NaN? <==> data.second.NaN?) && (g.Num? ==> g.r * GRAMS_PER_TROY_OUNCE == data.second.r)
    ensures data.FirstScalar? ==> (g.NaN? <==> data.first.NaN?) && (g.Num? ==> g.r * GRAMS_PER_TROY_OUNCE == data.first.r)
  {
    match data
    case FirstPair(v) => Divide(v, GRAMS_PER_TROY_OUNCE)
    case FirstScalar(v) => Divide(v, GRAMS_PER_TROY_OUNCE)
    case _ => Num(FALLBACK_USD_PER_GRAM)
  }

  /** The value returned when the feed throws: the cached value if it is
      truthy, however old, otherwise the fallback constant. */
  function Degraded(c: Option<Number>): (v: Number)
    ensures v.Truthy()
    ensures HasQuote(c) ==> v == c.value
    ensures !HasQuote(c) ==> v == Num(FALLBACK_USD_PER_GRAM)
  {
    if HasQuote(c) then c.value else Num(FALLBACK_USD_PER_GRAM)
  }

  /** One call of the quote service on the cache record `s`, as a value. The
      record is either left alone or replaced by the returned price stamped
      `now`; only a delivered payload replaces it; and a falsy price (0 or
      NaN) is only ever one that was just stored. */
  function Serve(s: State, now: int, feed: Feed): (r: Served)
    ensures r.cache == s || r.cache == State(Some(r.price), now)
    ensures r.cache != s ==> feed.Responds?
    ensures feed.Throws? ==> r.cache == s
    ensures r.price.Truthy() || (feed.Responds? && r.cache == State(Some(r.price), now))
  {
    if Fresh(s, now) then Served(s.pricePerGramUSD.value, s)
    else match feed
      case Responds(data) => Served(PerGram(data), State(Some(PerGram(data)), now))
      case Throws => Served(Degraded(s.pricePerGramUSD), s)
  }

  /** A cache hit returns the cached value, leaves the record as it is and
      does not depend on the feed at all. */
  lemma HitIgnoresFeed(s: State, now: int, feed: Feed, other: Feed)
    requires Fresh(s, now)
    ensures Serve(s, now, feed) == Serve(s, now, other) == Served(s.pricePerGramUSD.value, s)
    ensures Serve(s, now, feed).price.Truthy()
  {
  }

  /** A non-empty array payload yields the ounce price divided by the
      troy-ounce constant, and the cache becomes that value stamped `now`. */
  lemma FetchConvertsOunces(s: State, now: int, data: Payload, ounce: Number)
    requires !Fresh(s, now)
    requires data == FirstPair(ounce) || data == FirstScalar(ounce)
    ensures Serve(s, now, Responds(data)).cache == State(Some(Serve(s, now, Responds(data)).price), now)
    ensures Serve(s, now, Responds(data)).price.NaN? <==> ounce.NaN?
    ensures ounce.Num? ==> Serve(s, now, Responds(data)).price == Num(ounce.r / GRAMS_PER_TROY_OUNCE)
  {
  }

  /** An empty or non-array payload returns 75 and stores 75 with a fresh
      timestamp, exactly as a successful quote would be stored. */
  lemma MalformedPayloadStoresFallback(s: State, now: int, data: Payload)
    requires !Fresh(s, now)
    requires data.NotArray? || data.EmptyArray?
    ensures Serve(s, now, Responds(data)) == Served(Num(75.0), State(Some(Num(75.0)), now))
  {
  }

  /** A thrown request returns the previous truthy value even when it has
      expired, otherwise exactly 75, and never touches the record. */
  lemma FailureKeepsRecord(s: State, now: int)
    requires !Fresh(s, now)
    ensures Serve(s, now, Throws).cache == s
    ensures HasQuote(s.pricePerGramUSD) ==> Serve(s, now, Throws).price == s.pricePerGramUSD.value
    ensures !HasQuote(s.pricePerGramUSD) ==> Serve(s, now, Throws).price == Num(75.0)
  {
  }

  /** A cached 0 or NaN behaves like no cached value at all: the call
      returns the same price as it would on an empty record. */
  lemma FalsyQuoteActsAsEmpty(s: State, now: int, feed: Feed)
    requires !HasQuote(s.pricePerGramUSD)
    ensures Serve(s, now, feed).price == Serve(State(None, s.fetchedAt), now, feed).price
    ensures Serve(s, now, feed).cache == if feed.Throws? then s else Serve(State(None, s.fetchedAt), now, feed).cache
  {
  }

  /** The only way to be served a falsy price (0 or NaN) is a fresh feed
      payload whose ounce price is itself 0 or NaN. */
  lemma FalsyOnlyFromFeed(s: State, now: int, feed: Feed)
    requires !Serve(s, now, feed).price.Truthy()
    ensures !Fresh(s, now) && feed.Responds?
    ensures feed.data.FirstPair? || feed.data.FirstScalar?
    ensures feed.data.FirstPair? ==> !feed.data.second.Truthy()
    ensures feed.data.FirstScalar? ==> !feed.data.first.Truthy()
  {
  }

  /** Two calls within the TTL with no failure on the first: the second is a
      hit that returns the identical value, whatever the feed would say. */
  lemma SecondCallWithinTtlHits(s: State, t1: int, feed1: Feed, t2: int, feed2: Feed)
    requires Fresh(s, t1) || feed1.Responds?
    requires Serve(s, t1, feed1).price.Truthy()
    requires Serve(s, t1, feed1).cache.fetchedAt <= t2 < Serve(s, t1, feed1).cache.fetchedAt + TTL_MS
    ensures Fresh(Serve(s, t1, feed1).cache, t2)
    ensures Serve(Serve(s, t1, feed1).cache, t2, feed2) == Served(Serve(s, t1, feed1).price, Serve(s, t1, feed1).cache)
  {
  }

  /** The unit conversion on the worked figure: 3110.34768 USD per ounce is
      100 USD per gram. */
  lemma ConversionExample()
    ensures PerGram(FirstScalar(Num(3110.34768))) == Num(100.0)
    ensures PerGram(FirstPair(Num(3110.34768))) == Num(100.0)
  {
  }

  /** The module-level cache record and the async function that reads and
      overwrites it. */
  class GoldCache {
    var pricePerGramUSD: Option<Number>
    var fetchedAt: int

    function Record(): State
      reads this
    {
      State(pricePerGramUSD, fetchedAt)
    }

    /** `{ pricePerGramUSD: null, fetchedAt: 0 }` */
    constructor ()
      ensures Record() == INITIAL
    {
      pricePerGramUSD := None;
      fetchedAt := 0;
    }

    /** `fetchGoldPricePerGramUSD`, with the clock reading and the feed's
        outcome as inputs. */
    method FetchGoldPricePerGramUSD(now: int, feed: Feed) returns (price: Number)
      modifies this
      ensures price == Serve(old(Record()), now, feed).price
      ensures Record() == Serve(old(Record()), now, feed).cache
      ensures Fresh(old(Record()), now) ==> price == old(pricePerGramUSD).value && unchanged(this)
      ensures !Fresh(old(Record()), now) && feed.Responds? ==> Record() == State(Some(price), now)
      ensures feed.Throws? ==> unchanged(this)
    {
      if pricePerGramUSD.Some? && pricePerGramUSD.value.Truthy() && now - fetchedAt < TTL_MS {
        return pricePerGramUSD.value;
      }
      match feed {
        case Responds(data) =>
          var perGram: Number;
          match data {
            case FirstPair(v) =>
              perGram := Divide(v, GRAMS_PER_TROY_OUNCE);
            case FirstScalar(v) =>
              perGram := Divide(v, GRAMS_PER_TROY_OUNCE);
            case _ =>
              perGram := Num(FALLBACK_USD_PER_GRAM);
          }
          pricePerGramUSD, fetchedAt := Some(perGram), now;
          return perGram;
        case Throws =>
          if pricePerGramUSD.Some? && pricePerGramUSD.value.Truthy() {
            return pricePerGramUSD.value;
          }
          return Num(FALLBACK_USD_PER_GRAM);
      }
    }
  }
}
