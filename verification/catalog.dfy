/** The `/products` handler of the backend: price every catalog record from
    the gold price per gram, run the four optional range filters in order,
    and wrap the survivors in the response envelope. */
module Catalog {
  import opened Js
  import QuoteCache

  /** A record of the catalog file: the two numbers pricing and filtering
      read, and the name and images the frontend shows. The handler copies
      the whole record unchanged. */
  datatype Product = Product(name: string, popularityScore: real, weight: real, images: seq<string>)

  /** A catalog record spread into a new object together with its price. */
  datatype Priced = Priced(product: Product, price: Number)

  /** A query parameter after `Number(...)`: absent, or a number (NaN when
      the text does not parse). */
  datatype Criterion = Absent | Given(value: Number)

  /** The optional query parameters of `GET /products`. */
  datatype Query = Query(priceMin: Criterion, priceMax: Criterion, popMin: Criterion, popMax: Criterion)

  const NO_FILTERS: Query := Query(Absent, Absent, Absent, Absent)

  /** `x.toFixed(digits)`: the number and the digit count it is rendered
      with; the decimal string itself is not modelled. */
  datatype Fixed = Fixed(value: Number, digits: nat)

  /** A record of the response: the catalog fields and the formatted price. */
  datatype Item = Item(product: Product, price: Fixed)

  /** The JSON body of a successful response. */
  datatype Envelope = Envelope(goldPricePerGramUSD: Fixed, count: nat, items: seq<Item>)

  // ---------------------------------------------------------------- pricing

  /** `(popularityScore + 1) * weight * pricePerGram`; NaN when the price
      per gram is NaN. */
  function Price(p: Product, perGram: Number): (r: Number)
    ensures r.NaN? <==> perGram.NaN?
  {
    match perGram
    case NaN => NaN
    case Num(g) => Num((p.popularityScore + 1.0) * p.weight * g)
  }

  /** With a non-negative score, positive weight and positive price per
      gram, the price is never below `weight * pricePerGram`. */
  lemma PriceFloor(p: Product, g: real)
    requires p.popularityScore >= 0.0 && p.weight > 0.0 && g > 0.0
    ensures Price(p, Num(g)).r >= p.weight * g
  {
    var wg := p.weight * g;
    assert wg > 0.0;
    assert (p.popularityScore + 1.0) * p.weight * g == p.popularityScore * wg + wg;
    assert p.popularityScore * wg >= 0.0;
  }

  /** For positive weight and price per gram the price strictly increases
      with the popularity score. */
  lemma PriceIncreasesWithPopularity(p: Product, score: real, g: real)
    requires p.popularityScore < score && p.weight > 0.0 && g > 0.0
    ensures Price(p, Num(g)).r < Price(p.(popularityScore := score), Num(g)).r
  {
    var wg := p.weight * g;
    assert wg > 0.0;
    assert (p.popularityScore + 1.0) * p.weight * g == (p.popularityScore + 1.0) * wg;
    assert (score + 1.0) * p.weight * g == (score + 1.0) * wg;
    assert (score - p.popularityScore) * wg > 0.0;
  }

  /** For a non-negative score and a positive price per gram the price
      strictly increases with the weight. */
  lemma PriceIncreasesWithWeight(p: Product, weight: real, g: real)
    requires p.popularityScore >= 0.0 && p.weight < weight && g > 0.0
    ensures Price(p, Num(g)).r < Price(p.(weight := weight), Num(g)).r
  {
    var sg := (p.popularityScore + 1.0) * g;
    assert sg > 0.0;
    assert (p.popularityScore + 1.0) * p.weight * g == p.weight * sg;
    assert (p.popularityScore + 1.0) * weight * g == weight * sg;
    assert (weight - p.weight) * sg > 0.0;
  }

  /** For a non-negative score and a positive weight the price strictly
      increases with the price per gram. */
  lemma PriceIncreasesWithGold(p: Product, g: real, h: real)
    requires p.popularityScore >= 0.0 && p.weight > 0.0 && g < h
    ensures Price(p, Num(g)).r < Price(p, Num(h)).r
  {
    var sw := (p.popularityScore + 1.0) * p.weight;
    assert sw > 0.0;
    assert (h - g) * sw > 0.0;
  }

  /** `products.map(p => ({...p, price}))`. */
  function PriceAll(catalog: seq<Product>, perGram: Number): (r: seq<Priced>)
    ensures |r| == |catalog|
    ensures forall i :: 0 <= i < |r| ==> r[i].product == catalog[i] && r[i].price == Price(catalog[i], perGram)
  {
    if catalog == [] then [] else [Priced(catalog[0], Price(catalog[0], perGram))] + PriceAll(catalog[1..], perGram)
  }

  // -------------------------------------------------------------- filtering

  /** `a` keeps the order of `b` and takes some of its elements. */
  predicate Subsequence<T(==)>(a: seq<T>, b: seq<T>)
    decreases |b|
  {
    a == [] || (b != [] && if a[0] == b[0] then Subsequence(a[1..], b[1..]) else Subsequence(a, b[1..]))
  }

  /** `Array.prototype.filter`. */
  function Filter<T(==,!new)>(s: seq<T>, keep: T -> bool): (r: seq<T>)
    ensures |r| <= |s|
    ensures forall x :: x in r <==> x in s && keep(x)
    ensures Subsequence(r, s)
    ensures forall x {:trigger multiset(r)[x]} :: multiset(r)[x] == if keep(x) then multiset(s)[x] else 0
  {
    if s == [] then []
    else
      assert s == [s[0]] + s[1..];
      if keep(s[0]) then [s[0]] + Filter(s[1..], keep)
      else Filter(s[1..], keep)
  }

  /** Two filter passes in a row are one pass with the conjunction. */
  lemma {:induction false} FilterFuse<T(!new)>(s: seq<T>, f: T -> bool, g: T -> bool, h: T -> bool)
    requires forall x :: h(x) == (f(x) && g(x))
    ensures Filter(Filter(s, f), g) == Filter(s, h)
  {
    if s != [] {
      FilterFuse(s[1..], f, g, h);
      if f(s[0]) {
        assert Filter(s, f) == [s[0]] + Filter(s[1..], f);
        assert Filter(s, f)[1..] == Filter(s[1..], f);
      }
    }
  }

  /** Filtering with a predicate that holds of nothing leaves nothing. */
  lemma {:induction false} FilterNone<T(!new)>(s: seq<T>, keep: T -> bool)
    requires forall x :: !keep(x)
    ensures Filter(s, keep) == []
  {
    if s != [] {
      FilterNone(s[1..], keep);
    }
  }

  /** The four comparisons of the handler; each is false against NaN. */
  predicate AbovePriceMin(x: Priced, min: Number) { AtLeast(x.price, min) }
  predicate BelowPriceMax(x: Priced, max: Number) { AtMost(x.price, max) }
  predicate AbovePopMin(x: Priced, min: Number) { AtLeast(Num(x.product.popularityScore), min) }
  predicate BelowPopMax(x: Priced, max: Number) { AtMost(Num(x.product.popularityScore), max) }

  /** The four filter passes, each run only when its parameter is present,
      in the handler's order: priceMin, priceMax, popMin, popMax. */
  function FilterProducts(s: seq<Priced>, q: Query): (r: seq<Priced>)
    ensures |r| <= |s|
    ensures forall x :: multiset(r)[x] == if Matches(x, q) then multiset(s)[x] else 0
  {
    var s1 := if q.priceMin.Given? then Filter(s, x => AbovePriceMin(x, q.priceMin.value)) else s;
    var s2 := if q.priceMax.Given? then Filter(s1, x => BelowPriceMax(x, q.priceMax.value)) else s1;
    var s3 := if q.popMin.Given? then Filter(s2, x => AbovePopMin(x, q.popMin.value)) else s2;
    if q.popMax.Given? then Filter(s3, x => BelowPopMax(x, q.popMax.value)) else s3
  }

  /** The conjunction of every present bound, all bounds inclusive; an
      absent bound admits everything. */
  predicate Matches(x: Priced, q: Query) {
    && (q.priceMin.Given? ==> AbovePriceMin(x, q.priceMin.value))
    && (q.priceMax.Given? ==> BelowPriceMax(x, q.priceMax.value))
    && (q.popMin.Given? ==> AbovePopMin(x, q.popMin.value))
    && (q.popMax.Given? ==> BelowPopMax(x, q.popMax.value))
  }

  /** Filtering with two pointwise-equal predicates gives the same result. */
  lemma {:induction false} FilterSame<T(!new)>(s: seq<T>, f: T -> bool, g: T -> bool)
    requires forall x :: f(x) == g(x)
    ensures Filter(s, f) == Filter(s, g)
  {
    if s != [] {
      FilterSame(s[1..], f, g);
    }
  }

  /** Filtering with the always-true predicate changes nothing. */
  lemma {:induction false} FilterAll<T(!new)>(s: seq<T>, keep: T -> bool)
    requires forall x :: keep(x)
    ensures Filter(s, keep) == s
  {
    if s != [] {
      FilterAll(s[1..], keep);
      assert s == [s[0]] + s[1..];
    }
  }

  /** The four sequential passes are one stable pass keeping exactly the
      records that satisfy every present bound. */
  lemma FilterProductsIsOnePass(s: seq<Priced>, q: Query)
    ensures FilterProducts(s, q) == Filter(s, x => Matches(x, q))
  {
    var c0: Priced -> bool := x => true;
    var c1: Priced -> bool := x => q.priceMin.Given? ==> AbovePriceMin(x, q.priceMin.value);
    var c2: Priced -> bool := x => c1(x) && (q.priceMax.Given? ==> BelowPriceMax(x, q.priceMax.value));
    var c3: Priced -> bool := x => c2(x) && (q.popMin.Given? ==> AbovePopMin(x, q.popMin.value));
    var c4: Priced -> bool := x => c3(x) && (q.popMax.Given? ==> BelowPopMax(x, q.popMax.value));
    FilterAll(s, c0);
    var s1 := if q.priceMin.Given? then Filter(s, x => AbovePriceMin(x, q.priceMin.value)) else s;
    if q.priceMin.Given? {
      FilterSame(s, x => AbovePriceMin(x, q.priceMin.value), c1);
    } else {
      FilterAll(s, c1);
    }
    var s2 := if q.priceMax.Given? then Filter(s1, x => BelowPriceMax(x, q.priceMax.value)) else s1;
    if q.priceMax.Given? {
      FilterFuse(s, c1, x => BelowPriceMax(x, q.priceMax.value), c2);
    } else {
      FilterSame(s, c1, c2);
    }
    var s3 := if q.popMin.Given? then Filter(s2, x => AbovePopMin(x, q.popMin.value)) else s2;
    if q.popMin.Given? {
      FilterFuse(s, c2, x => AbovePopMin(x, q.popMin.value), c3);
    } else {
      FilterSame(s, c2, c3);
    }
    if q.popMax.Given? {
      FilterFuse(s, c3, x => BelowPopMax(x, q.popMax.value), c4);
    } else {
      FilterSame(s, c3, c4);
    }
    FilterSame(s, c4, x => Matches(x, q));
  }

  /** The filtered list is an order-preserving subsequence of its input and
      holds exactly the records that satisfy every present bound. */
  lemma FilterProductsSelects(s: seq<Priced>, q: Query)
    ensures Subsequence(FilterProducts(s, q), s)
    ensures forall x :: x in FilterProducts(s, q) <==> x in s && Matches(x, q)
    ensures forall x :: multiset(FilterProducts(s, q))[x] == if Matches(x, q) then multiset(s)[x] else 0
  {
    FilterProductsIsOnePass(s, q);
  }

  /** With no parameter present nothing is filtered out. */
  lemma NoFiltersKeepsAll(s: seq<Priced>)
    ensures FilterProducts(s, NO_FILTERS) == s
  {
  }

  /** A present parameter that parses to NaN removes every record. */
  lemma NaNCriterionEmpties(s: seq<Priced>, q: Query)
    requires q.priceMin == Given(NaN) || q.priceMax == Given(NaN) || q.popMin == Given(NaN) || q.popMax == Given(NaN)
    ensures FilterProducts(s, q) == []
  {
    FilterProductsIsOnePass(s, q);
    FilterNone(s, x => Matches(x, q));
  }

  /** The worked figure: prices 50, 150 and 250 filtered by priceMin 100 and
      priceMax 200 leave only the 150 record. */
  lemma PriceRangeExample(a: Product, b: Product, c: Product)
    ensures FilterProducts([Priced(a, Num(50.0)), Priced(b, Num(150.0)), Priced(c, Num(250.0))],
                           Query(Given(Num(100.0)), Given(Num(200.0)), Absent, Absent))
            == [Priced(b, Num(150.0))]
  {
    var q := Query(Given(Num(100.0)), Given(Num(200.0)), Absent, Absent);
    FilterProductsIsOnePass([Priced(a, Num(50.0)), Priced(b, Num(150.0)), Priced(c, Num(250.0))], q);
    FilterOnlyMiddle(Priced(a, Num(50.0)), Priced(b, Num(150.0)), Priced(c, Num(250.0)), x => Matches(x, q));
  }

  /** A pass over three records that keeps only the middle one. */
  lemma FilterOnlyMiddle<T(!new)>(x: T, y: T, z: T, keep: T -> bool)
    requires !keep(x) && keep(y) && !keep(z)
    ensures Filter([x, y, z], keep) == [y]
  {
    FilterCons(z, [], keep);
    FilterCons(y, [z], keep);
    FilterCons(x, [y, z], keep);
    assert [x, y, z] == [x] + ([y] + ([z] + []));
  }

  /** One step of a filter pass. */
  lemma FilterCons<T(!new)>(x: T, rest: seq<T>, keep: T -> bool)
    ensures Filter([x] + rest, keep) == (if keep(x) then [x] else []) + Filter(rest, keep)
  {
    assert ([x] + rest)[1..] == rest;
  }

  // ------------------------------------------------------------- formatting

  /** `items.map(p => ({...p, price: p.price.toFixed(2)}))`. */
  function FormatAll(s: seq<Priced>): (r: seq<Item>)
    ensures |r| == |s|
    ensures forall i :: 0 <= i < |r| ==> r[i] == Item(s[i].product, Fixed(s[i].price, 2))
  {
    if s == [] then [] else [Item(s[0].product, Fixed(s[0].price, 2))] + FormatAll(s[1..])
  }

  /** The body of a successful response for a given price per gram. */
  function Respond(catalog: seq<Product>, perGram: Number, q: Query): (r: Envelope)
    ensures r.count == |r.items| <= |catalog|
    ensures r.goldPricePerGramUSD == Fixed(perGram, 4)
    ensures forall it :: it in r.items ==> it.product in catalog && it.price == Fixed(Price(it.product, perGram), 2)
  {
    KeptComeFromCatalog(catalog, perGram, q);
    var items := FormatAll(FilterProducts(PriceAll(catalog, perGram), q));
    Envelope(Fixed(perGram, 4), |items|, items)
  }

  /** Every record that survives the filters is a catalog record carrying
      its own computed price. */
  lemma KeptComeFromCatalog(catalog: seq<Product>, perGram: Number, q: Query)
    ensures forall x :: x in FilterProducts(PriceAll(catalog, perGram), q) ==> x.product in catalog && x.price == Price(x.product, perGram)
  {
    var priced := PriceAll(catalog, perGram);
    forall x | x in FilterProducts(priced, q)
      ensures x.product in catalog && x.price == Price(x.product, perGram)
    {
      assert multiset(FilterProducts(priced, q))[x] > 0;
      assert x in priced;
      var j :| 0 <= j < |priced| && priced[j] == x;
    }
  }

  /** The record a catalog product becomes in the response. */
  function AsItem(p: Product, perGram: Number): (it: Item) {
    Item(p, Fixed(Price(p, perGram), 2))
  }

  /** The products of a list of response records. */
  function ProductsOf(items: seq<Item>): (r: seq<Product>)
    ensures |r| == |items|
    ensures forall i :: 0 <= i < |r| ==> r[i] == items[i].product
  {
    if items == [] then [] else [items[0].product] + ProductsOf(items[1..])
  }

  /** Pricing, filtering and formatting commute with taking products: the
      response lists the catalog records that match, in catalog order. */
  lemma {:induction false} ItemsAreFilteredCatalog(catalog: seq<Product>, perGram: Number, q: Query)
    ensures ProductsOf(FormatAll(Filter(PriceAll(catalog, perGram), x => Matches(x, q))))
            == Filter(catalog, p => Matches(Priced(p, Price(p, perGram)), q))
    ensures FormatAll(Filter(PriceAll(catalog, perGram), x => Matches(x, q)))
            == MapItems(Filter(catalog, p => Matches(Priced(p, Price(p, perGram)), q)), perGram)
  {
    if catalog != [] {
      ItemsAreFilteredCatalog(catalog[1..], perGram, q);
      var rest := PriceAll(catalog[1..], perGram);
      assert PriceAll(catalog, perGram) == [Priced(catalog[0], Price(catalog[0], perGram))] + rest;
      assert PriceAll(catalog, perGram)[1..] == rest;
      var kept := Filter(rest, x => Matches(x, q));
      if Matches(Priced(catalog[0], Price(catalog[0], perGram)), q) {
        var all := Filter(PriceAll(catalog, perGram), x => Matches(x, q));
        assert all == [Priced(catalog[0], Price(catalog[0], perGram))] + kept;
        assert FormatAll(all)[1..] == FormatAll(kept);
        assert ProductsOf(FormatAll(all))[1..] == ProductsOf(FormatAll(kept));
      }
    }
  }

  /** The response records for a list of catalog records. */
  function MapItems(s: seq<Product>, perGram: Number): (r: seq<Item>)
    ensures |r| == |s|
    ensures forall i :: 0 <= i < |r| ==> r[i] == AsItem(s[i], perGram)
  {
    if s == [] then [] else [AsItem(s[0], perGram)] + MapItems(s[1..], perGram)
  }

  /** The envelope: `count` is the number of records, the echoed gold price
      is the one used for pricing, and the records are exactly the catalog
      records that satisfy every present bound, each with every field copied
      and its computed price, in catalog order. */
  lemma RespondSpec(catalog: seq<Product>, perGram: Number, q: Query)
    ensures Respond(catalog, perGram, q).count == |Respond(catalog, perGram, q).items| <= |catalog|
    ensures Respond(catalog, perGram, q).goldPricePerGramUSD == Fixed(perGram, 4)
    ensures Respond(catalog, perGram, q).items == MapItems(Filter(catalog, p => Matches(Priced(p, Price(p, perGram)), q)), perGram)
    ensures Subsequence(ProductsOf(Respond(catalog, perGram, q).items), catalog)
  {
    FilterProductsIsOnePass(PriceAll(catalog, perGram), q);
    ItemsAreFilteredCatalog(catalog, perGram, q);
  }

  /** An empty catalog gives `{count: 0, items: []}`. */
  lemma EmptyCatalog(perGram: Number, q: Query)
    ensures Respond([], perGram, q).count == 0 && Respond([], perGram, q).items == []
  {
  }

  /** The handler: ask the quote cache for the price per gram, then price,
      filter and format the catalog. */
  method GetProducts(cache: QuoteCache.GoldCache, catalog: seq<Product>, q: Query, now: int, feed: QuoteCache.Feed)
    returns (body: Envelope)
    modifies cache
    ensures cache.Record() == QuoteCache.Serve(old(cache.Record()), now, feed).cache
    ensures body == Respond(catalog, QuoteCache.Serve(old(cache.Record()), now, feed).price, q)
  {
    var perGram := cache.FetchGoldPricePerGramUSD(now, feed);
    body := Respond(catalog, perGram, q);
  }
}
