# Gold-priced catalog: a Dafny model

This project models the logic of a small full-stack catalog whose prices
follow the gold spot price.

- **Backend quote cache** (`QuoteCache`). A process-wide record
  `{pricePerGramUSD, fetchedAt}` is served while it is truthy and younger
  than five minutes. Otherwise the spot-price feed is asked:
  - a non-empty array payload is read as an ounce price and divided by
    31.1034768;
  - any other payload shape yields 75;
  - either way the result is stored with the current time.

  A feed that throws returns the old truthy value, however stale, or else
  75, and leaves the record alone.
- **Backend `/products` handler** (`Catalog`). Every catalog record is
  priced at `(popularityScore + 1) * weight * pricePerGram`. Four optional
  inclusive range filters run in the order priceMin, priceMax, popMin,
  popMax. The survivors are wrapped in `{goldPricePerGramUSD, count, items}`.
- **Frontend image carousel** (`Gallery`). Each product card keeps the
  index of the image it shows in a map from card position to index. The
  arrows move it with wrap-around, the colour dots set it, and a swipe of
  more than 30 pixels acts as an arrow.

`Js` holds the JavaScript semantics the other modules share:
- numbers as reals plus NaN;
- truthiness (0 and NaN are falsy);
- comparisons that are false against NaN;
- `%` that truncates toward zero.

The clock (`Date.now()`) and the feed request are inputs. `now` is a
millisecond timestamp, and `Feed` is the outcome the request would have:
`Throws`, or `Responds` with a payload classified as `NotArray`,
`EmptyArray`, `FirstPair(second)` or `FirstScalar(first)`.

Query parameters arrive already coerced: each is `Absent`, or `Given` a
number that is NaN when the text does not parse. The catalog is an input
sequence.

The code tests the cached value for truthiness, not for presence
(backend/server.js lines 20 and 45). So a cached 0 or NaN behaves exactly
like an empty cache: the record is refetched before the TTL runs out, and
a thrown fetch then returns 75 rather than the cached 0 or NaN
(`QuoteCache.FalsyQuoteActsAsEmpty`).

## Model

| member | source | states |
|---|---|---|
| `Js.Divide` | backend/server.js:35 | dividing by a non-zero constant keeps NaN as NaN, and otherwise the quotient times the divisor gives back the dividend |
| `Js.Rem` | frontend/src/App.js:53-61 | JavaScript `%`: the remainder is below the divisor in size, has the sign of the dividend, and the dividend equals the truncated quotient times the divisor plus the remainder |
| `Js.RemInRange` | frontend/src/App.js:53-61 | `%` leaves a dividend in `[0, n)` unchanged and takes `n` off one in `[n, 2n)` |
| `QuoteCache.PerGram` | backend/server.js:31-39 | a pair or scalar payload yields a per-gram price that is NaN exactly when the ounce price is, and that times 31.1034768 gives the ounce price; any other shape yields 75 |
| `QuoteCache.Degraded` | backend/server.js:43-47 | the value returned on a thrown fetch is the cached value when it is truthy, else 75, and is always truthy |
| `QuoteCache.Fresh` | backend/server.js:19-20 | a hit needs a cached value that is a non-zero, non-NaN number, and a record at least 300000 ms old is never a hit |
| `QuoteCache.Serve` | backend/server.js:17-48 | one call either leaves the record alone or replaces it by the returned price stamped `now`; only a delivered payload replaces it, a thrown fetch never does; a falsy price (0 or NaN) is returned only when it was just stored |
| `QuoteCache.HitIgnoresFeed` | backend/server.js:19-22 | on a hit (truthy value, younger than 300000 ms) the call returns the cached value, leaves the record unchanged, and gives the same answer whatever the feed would have said |
| `QuoteCache.FetchConvertsOunces` | backend/server.js:32-42 | on a miss, a non-empty array payload returns ounce price / 31.1034768 (NaN for NaN), and the record becomes that value stamped `now` |
| `QuoteCache.MalformedPayloadStoresFallback` | backend/server.js:36-42 | on a miss, an empty or non-array payload returns 75 and stores `(75, now)` |
| `QuoteCache.FailureKeepsRecord` | backend/server.js:43-47 | on a miss with a thrown fetch, the record is untouched and the call returns the old truthy value even if expired, else exactly 75 |
| `QuoteCache.FalsyQuoteActsAsEmpty` | backend/server.js:20-47 | a cached 0 or NaN gives the same price as an empty record, whatever the feed does |
| `QuoteCache.FalsyOnlyFromFeed` | backend/server.js:17-47 | a falsy price (0 or NaN) is returned only on a miss whose payload is a pair or scalar with a falsy ounce price |
| `QuoteCache.SecondCallWithinTtlHits` | backend/server.js:19-42 | after a call that hit or fetched a truthy price, a second call less than 300000 ms after the stored timestamp is a hit that returns the identical value, whatever its feed |
| `QuoteCache.ConversionExample` | backend/server.js:29-35 | an ounce price of 3110.34768 converts to exactly 100 per gram |
| `QuoteCache.GoldCache.constructor` | backend/server.js:15 | the record starts as `{pricePerGramUSD: null, fetchedAt: 0}` |
| `QuoteCache.GoldCache.FetchGoldPricePerGramUSD` | backend/server.js:17-48 | returns and stores what `Serve` prescribes: a hit returns the cached value and changes nothing; a fetched payload is stored as `(price, now)`; a throw changes nothing |
| `Catalog.Price` | backend/server.js:56 | the price is NaN exactly when the price per gram is NaN |
| `Catalog.PriceFloor` | backend/server.js:54-57 | with score ≥ 0, weight > 0 and price per gram > 0, the price is at least weight × price per gram |
| `Catalog.PriceIncreasesWithPopularity` | backend/server.js:54-57 | with positive weight and price per gram, the price strictly increases with the popularity score |
| `Catalog.PriceIncreasesWithWeight` | backend/server.js:54-57 | with score ≥ 0 and positive price per gram, the price strictly increases with the weight |
| `Catalog.PriceIncreasesWithGold` | backend/server.js:54-57 | with score ≥ 0 and positive weight, the price strictly increases with the price per gram |
| `Catalog.PriceAll` | backend/server.js:54-57 | one priced record per catalog record, in order; each keeps the catalog record unchanged and carries its computed price |
| `Catalog.Filter` | backend/server.js:62-77 | a filter pass is an order-preserving subsequence of its input, no longer than it, holding exactly the elements that satisfy the predicate, each as many times as it occurs in the input |
| `Catalog.FilterFuse` | backend/server.js:62-77 | two filter passes in a row equal one pass with the conjunction of their predicates |
| `Catalog.FilterProducts` | backend/server.js:59-77 | the four conditional passes keep every record that satisfies all present bounds, with all its repetitions, and drop every other record |
| `Catalog.FilterProductsIsOnePass` | backend/server.js:59-77 | the four conditional passes equal one stable pass keeping the records that satisfy every present bound |
| `Catalog.FilterProductsSelects` | backend/server.js:59-77 | the filtered list is an order-preserving subsequence of the priced catalog; a record is in it exactly when it satisfies every present inclusive bound, and then as often as in the catalog |
| `Catalog.NoFiltersKeepsAll` | backend/server.js:60-77 | with no parameter present the priced catalog passes unchanged |
| `Catalog.NaNCriterionEmpties` | backend/server.js:62-77 | any present parameter that coerces to NaN removes every record |
| `Catalog.PriceRangeExample` | backend/server.js:62-69 | prices 50, 150 and 250 filtered by priceMin 100 and priceMax 200 leave only the 150 record |
| `Catalog.FormatAll` | backend/server.js:80-83 | one response record per filtered record, in order, each with its catalog fields and its price formatted to 2 digits |
| `Catalog.Respond` | backend/server.js:54-89 | `count` equals the number of items and is at most the catalog size; the echoed price is the one used, to 4 digits; every item is a catalog record with its own computed price to 2 digits |
| `Catalog.KeptComeFromCatalog` | backend/server.js:54-77 | every record that survives the filters is a catalog record carrying its own computed price |
| `Catalog.ItemsAreFilteredCatalog` | backend/server.js:54-83 | pricing, filtering and formatting give the response records of exactly the matching catalog records, in catalog order |
| `Catalog.RespondSpec` | backend/server.js:54-89 | `count` equals the number of items and is at most the catalog size; the echoed price is the one used, to 4 digits; the items are the matching catalog records in catalog order, all fields copied and priced |
| `Catalog.EmptyCatalog` | backend/server.js:85-89 | an empty catalog gives count 0 and no items |
| `Catalog.GetProducts` | backend/server.js:50-89 | the handler updates the quote cache as one quote call does and answers with the envelope built from the price that call returns |
| `Gallery.Current` | frontend/src/App.js:52 | the current index is one of the stored indices or the default 0; storing it back under the same card leaves the map as it was, except that a missing entry becomes an explicit 0 |
| `Gallery.ImageCount` | frontend/src/App.js:53-61 | the divisor is at least 1, and equals the card's image count when the card exists and has images |
| `Gallery.AfterNext` | frontend/src/App.js:58-64 | only entry `idx` is set, other entries unchanged; for a current index ≥ 0, stale values included, the new index lies in `[0, n)`; it is current + 1, or 0 from the last image |
| `Gallery.AfterPrev` | frontend/src/App.js:50-56 | only entry `idx` is set, other entries unchanged; for a current index ≥ 0 the new index lies in `[0, n)`; it is current − 1, or n − 1 from index 0 |
| `Gallery.AfterPick` | frontend/src/App.js:66-68 | entry `idx` becomes the picked index and every other entry is unchanged |
| `Gallery.PrevUndoesNext` | frontend/src/App.js:50-64 | for a current index in `[0, n)`, previous after next restores it |
| `Gallery.NextUndoesPrev` | frontend/src/App.js:50-64 | for a current index in `[0, n)`, next after previous restores it |
| `Gallery.Classify` | frontend/src/App.js:72-83 | a swipe goes back exactly when delta > 30, forward exactly when delta < −30, and does nothing exactly when it lies in [−30, 30] |
| `Gallery.ShownImage` | frontend/src/App.js:112-114 | a card shows an image exactly when it has any; it is `images[activeIndex]` when that exists and is non-empty, else `images[0]` |
| `Gallery.ArrowsShowOwnImage` | frontend/src/App.js:112-114 | after an arrow on a card with images, the stored index lies in range and the card shows the image at it whenever that path is non-empty |
| `Gallery.Carousel.constructor` | frontend/src/App.js:6-71 | the component starts with no cards, an empty index map and no touch start |
| `Gallery.Carousel.SetItems` | frontend/src/App.js:31 | received cards replace the old ones and the index map is kept as it is |
| `Gallery.Carousel.HandlePrev` | frontend/src/App.js:50-56 | the index map becomes `AfterPrev` of the old map; cards and touch start unchanged |
| `Gallery.Carousel.HandleNext` | frontend/src/App.js:58-64 | the index map becomes `AfterNext` of the old map; cards and touch start unchanged |
| `Gallery.Carousel.HandlePickColor` | frontend/src/App.js:66-68 | the index map becomes `AfterPick` of the old map; cards and touch start unchanged |
| `Gallery.Carousel.OnTouchStart` | frontend/src/App.js:74 | the touch start becomes the first touch's x, or null without one; nothing else changes |
| `Gallery.Carousel.OnTouchEnd` | frontend/src/App.js:75-85 | with no recorded start nothing changes; otherwise the map becomes that of `handlePrev` (delta > 30), `handleNext` (delta < −30) or stays, and the start is reset to null |
| `Gallery.Carousel.ActiveImage` | frontend/src/App.js:111-114 | a card shows an image exactly when it has images, and that image is one of its own |

## Left out

- Numbers are idealised as unbounded reals plus NaN. IEEE-754 rounding in the ounce-to-gram division and in the price product is not modelled, and neither are infinities.
- `toFixed(2)` and `toFixed(4)` are kept as a `Fixed(value, digits)` record; the decimal string they render is not modelled.
- `Number(...)` coercion of query strings and feed values is not modelled; these arrive already classified as a number or NaN.
- The fetch request, `Date.now()`, reading `products.json`, Express setup, CORS, static files, `listen` and the HTTP 500 path are left out. The feed outcome, the clock reading and the catalog are inputs instead.
- `QuoteCache.GoldCache.FetchGoldPricePerGramUSD`: the source reads the clock twice, before the request (line 20) and after it (line 41). The model uses one reading `now` for both.
- Concurrent requests that race past an expired TTL and interleave their writes to the cache are not modelled; each call runs to completion.
- `Catalog.Product` names the two numbers the handler reads (`popularityScore`, `weight`) and the `name` and `images` the frontend shows. The model represents only these four fields. In the handler's spreads any other field of a catalog record is copied unchanged, except a catalog `price` field, which is replaced by the computed price.
- Catalog numbers are assumed present and finite: `popularityScore` and `weight` are reals, so a record with a missing or non-numeric field, which would give a NaN price, is not represented.
- In the frontend, the search request and its query building (`handleSearch`, lines 21-37) are left out, except the state update `setItems` at line 31. Also left out: the float-rounding helpers `popularityToFive` and `renderStars`, `scrollByAmount` DOM scrolling, and all rendering, loading and error display.
- React's deferred state updates are not modelled: each handler's update is applied at once. In particular, `onTouchEnd` is modelled as reading the latest `touchStartX`, not the value captured at render time.
- Frontend cards carry only their image list. A card without `images` is the same as one with an empty list, since both lines 53-61 and line 113 treat them alike.
