/**
 * `search_amazon_products`: the request built from the query, the provider's answer,
 * the loop that turns raw records into products (skipping low ratings and records
 * without an ASIN, stopping at `max_results`), the ranking sort, and the failure record
 * every exception turns into.
 */
module ProductSearch {
  import opened Basics
  import opened QueryOptimizer
  import opened PriceRange
  import opened Catalog
  import opened Ranking

  /** The request sent to the provider: the optimised query, and the price bounds that
      were found and are non-zero (`if min_price:`, `if max_price:`). */
  datatype SearchRequest = SearchRequest(k: string, lowPrice: Option<nat>, highPrice: Option<nat>)

  /** Fetching the API key and running the search: the records of "organic_results"
      ([] when absent), or the text of the exception either step raised. */
  type Provider = SearchRequest -> Result<seq<RawRecord>>

  /** The dictionary `search_amazon_products` returns; `error` is present on failure
      only. */
  datatype SearchResult = SearchResult(
    success: bool, products: seq<Product>, totalResults: nat, error: Option<string>)

  /** The record of a search that raised `e`. */
  function Failure(e: string): SearchResult {
    SearchResult(false, [], 0, Some(e))
  }

  /** A bound as a request parameter: only when it is truthy. */
  function Truthy(b: Option<nat>): Option<nat> {
    if b.Some? && b.value != 0 then b else None
  }

  /** The request: the optimised query, and each bound that was found and is non-zero. */
  function RequestFor(query: string): (req: SearchRequest)
    ensures req.k == Optimized(query)
    ensures req.lowPrice.Some? <==> Extracted(query).low.Some? && Extracted(query).low.value != 0
    ensures req.lowPrice.Some? ==> req.lowPrice == Extracted(query).low
    ensures req.highPrice.Some? <==> Extracted(query).high.Some? && Extracted(query).high.value != 0
    ensures req.highPrice.Some? ==> req.highPrice == Extracted(query).high
  {
    var b := Extracted(query);
    SearchRequest(Optimized(query), Truthy(b.low), Truthy(b.high))
  }

  /** A product the loop may keep: it has an ASIN, and its rating is unknown (0 or
      below) or at least the minimum. */
  predicate Admissible(p: Product, minRating: real) {
    p.asin != [] && (p.rating <= 0.0 || p.rating >= minRating)
  }

  /** The record loop from the products `acc` gathered so far: a record rated below the
      minimum is skipped before its price is read; a price that cannot be read ends
      everything with its error; a record with an ASIN is kept; the loop stops as soon
      as `acc` holds `maxResults` products, checked after every record not skipped. */
  function Gather(recs: seq<RawRecord>, maxResults: int, minRating: real, acc: seq<Product>)
    : (r: Result<seq<Product>>)
    decreases |recs|
  {
    if recs == [] then Ok(acc)
    else
      var rec := recs[0];
      var rating := RatingOf(rec.rating);
      if RatedBelow(rating, minRating) then Gather(recs[1..], maxResults, minRating, acc)
      else
        match PriceOf(rec.price)
        case Err(e) => Err(e)
        case Ok(price) =>
          var kept := if rec.asin != [] then acc + [ToProduct(rec, rating, price)] else acc;
          if |kept| >= maxResults then Ok(kept)
          else Gather(recs[1..], maxResults, minRating, kept)
  }

  /** The outcome of `search_amazon_products(query, maxResults, minRating)`. */
  function Searched(provider: Provider, query: string, maxResults: int, minRating: real)
    : SearchResult
  {
    match provider(RequestFor(query))
    case Err(e) => Failure(e)
    case Ok(recs) =>
      match Gather(recs, maxResults, minRating, [])
      case Err(e) => Failure(e)
      case Ok(products) => SearchResult(true, SortDesc(products), |products|, None)
  }

  method SearchAmazonProducts(provider: Provider, query: string, maxResults: int, minRating: real)
    returns (result: SearchResult)
    ensures result == Searched(provider, query, maxResults, minRating)
  {
    var optimized := OptimizeSearchQuery(query);
    var bounds := ExtractPriceRange(query);
    var response := provider(SearchRequest(optimized, Truthy(bounds.low), Truthy(bounds.high)));
    if response.Err? {
      return Failure(response.error);
    }
    var records := response.value;
    var products: seq<Product> := [];
    var i := 0;
    while i < |records|
      invariant 0 <= i <= |records|
      invariant Gather(records, maxResults, minRating, [])
        == Gather(records[i..], maxResults, minRating, products)
    {
      var record := records[i];
      assert records[i..][1..] == records[i + 1..];
      var rating := RatingOf(record.rating);
      if RatedBelow(rating, minRating) {
        i := i + 1;
        continue;
      }
      var price := PriceOf(record.price);
      if price.Err? {
        return Failure(price.error);
      }
      if record.asin != [] {
        products := products + [ToProduct(record, rating, price.value)];
      }
      if |products| >= maxResults {
        break;
      }
      i := i + 1;
    }
    products := SortDesc(products);
    return SearchResult(true, products, |products|, None);
  }

  /** The products of the records, in order, that are not rated below the minimum, have
      an ASIN and a readable price. */
  function Kept(recs: seq<RawRecord>, minRating: real): (ps: seq<Product>)
    ensures |ps| <= |recs|
  {
    if recs == [] then []
    else
      var rec := recs[0];
      var rating := RatingOf(rec.rating);
      var price := PriceOf(rec.price);
      (if !RatedBelow(rating, minRating) && rec.asin != [] && price.Ok?
       then [ToProduct(rec, rating, price.value)] else [])
      + Kept(recs[1..], minRating)
  }

  /** The first `n` elements (`s[:n]`). */
  function Take<T>(s: seq<T>, n: nat): (r: seq<T>)
    ensures |r| == if n <= |s| then n else |s|
  {
    if n <= |s| then s[..n] else s
  }

  /** The loop only appends admissible products, and stops at `maxResults`, or after
      one record when it starts at or above it. */
  lemma {:induction false} GatherAdmissible(
    recs: seq<RawRecord>, maxResults: int, minRating: real, acc: seq<Product>)
    requires Gather(recs, maxResults, minRating, acc).Ok?
    ensures var ps := Gather(recs, maxResults, minRating, acc).value;
      |acc| <= |ps| && ps[..|acc|] == acc
      && (forall k :: |acc| <= k < |ps| ==> Admissible(ps[k], minRating))
      && |ps| <= (if maxResults > |acc| then maxResults else |acc| + 1)
    decreases |recs|
  {
    if recs != [] {
      var rec := recs[0];
      var rating := RatingOf(rec.rating);
      if RatedBelow(rating, minRating) {
        GatherAdmissible(recs[1..], maxResults, minRating, acc);
      } else {
        var price := PriceOf(rec.price).value;
        var kept := if rec.asin != [] then acc + [ToProduct(rec, rating, price)] else acc;
        if |kept| < maxResults {
          GatherAdmissible(recs[1..], maxResults, minRating, kept);
          var ps := Gather(recs, maxResults, minRating, acc).value;
          assert ps[..|kept|][..|acc|] == acc;
        }
      }
    }
  }

  /** `p` is the product record of a record of `recs` that the loop keeps: one not rated
      below the minimum, with an ASIN and a readable price. */
  predicate FromRecord(p: Product, recs: seq<RawRecord>, minRating: real) {
    exists j :: 0 <= j < |recs| && recs[j].asin != []
      && !RatedBelow(RatingOf(recs[j].rating), minRating) && PriceOf(recs[j].price).Ok?
      && p == ToProduct(recs[j], RatingOf(recs[j].rating), PriceOf(recs[j].price).value)
  }

  lemma FromRest(p: Product, recs: seq<RawRecord>, minRating: real)
    requires recs != [] && FromRecord(p, recs[1..], minRating)
    ensures FromRecord(p, recs, minRating)
  {
    var j :| 0 <= j < |recs[1..]| && recs[1..][j].asin != []
      && !RatedBelow(RatingOf(recs[1..][j].rating), minRating) && PriceOf(recs[1..][j].price).Ok?
      && p == ToProduct(recs[1..][j], RatingOf(recs[1..][j].rating), PriceOf(recs[1..][j].price).value);
    assert recs[j + 1] == recs[1..][j];
  }

  /** Every product the loop appends is built from one of the records it kept. */
  lemma {:induction false} GatherFromRecords(
    recs: seq<RawRecord>, maxResults: int, minRating: real, acc: seq<Product>)
    requires Gather(recs, maxResults, minRating, acc).Ok?
    ensures var ps := Gather(recs, maxResults, minRating, acc).value;
      forall k :: |acc| <= k < |ps| ==> FromRecord(ps[k], recs, minRating)
    decreases |recs|
  {
    if recs != [] {
      var rec := recs[0];
      var rating := RatingOf(rec.rating);
      var ps := Gather(recs, maxResults, minRating, acc).value;
      GatherUnfold(recs, maxResults, minRating, acc);
      if RatedBelow(rating, minRating) {
        GatherFromRecords(recs[1..], maxResults, minRating, acc);
        forall k | |acc| <= k < |ps|
          ensures FromRecord(ps[k], recs, minRating)
        {
          FromRest(ps[k], recs, minRating);
        }
      } else {
        var price := PriceOf(rec.price).value;
        var head := if rec.asin != [] then [ToProduct(rec, rating, price)] else [];
        var kept := acc + head;
        if |kept| < maxResults {
          GatherFromRecords(recs[1..], maxResults, minRating, kept);
          GatherAdmissible(recs[1..], maxResults, minRating, kept);
        }
        assert ps[..|kept|] == kept;
        forall k | |acc| <= k < |ps|
          ensures FromRecord(ps[k], recs, minRating)
        {
          if k < |kept| {
            assert ps[k] == kept[k] == ToProduct(recs[0], rating, price);
          } else {
            FromRest(ps[k], recs, minRating);
          }
        }
      }
    }
  }

  /** One record of the loop that succeeds, and of `Kept`. */
  lemma GatherUnfold(recs: seq<RawRecord>, maxResults: int, minRating: real, acc: seq<Product>)
    requires recs != [] && Gather(recs, maxResults, minRating, acc).Ok?
    ensures var rec, rating := recs[0], RatingOf(recs[0].rating);
      if RatedBelow(rating, minRating) then
        Gather(recs, maxResults, minRating, acc) == Gather(recs[1..], maxResults, minRating, acc)
        && Kept(recs, minRating) == Kept(recs[1..], minRating)
      else
        PriceOf(rec.price).Ok?
        && var head := if rec.asin != [] then [ToProduct(rec, rating, PriceOf(rec.price).value)] else [];
        Gather(recs, maxResults, minRating, acc)
          == (if |acc + head| >= maxResults then Ok(acc + head)
              else Gather(recs[1..], maxResults, minRating, acc + head))
        && Kept(recs, minRating) == head + Kept(recs[1..], minRating)
  {
    if !RatedBelow(RatingOf(recs[0].rating), minRating) && recs[0].asin == [] {
      assert acc + [] == acc;
    }
  }

  lemma TakeCons<T>(p: T, rest: seq<T>, n: nat)
    ensures Take([p] + rest, n + 1) == [p] + Take(rest, n)
  {
  }

  /** Below the cap, the loop gathers exactly the first kept products: as many as fit
      under `maxResults`. */
  lemma {:induction false} GatherTakes(
    recs: seq<RawRecord>, maxResults: int, minRating: real, acc: seq<Product>)
    requires Gather(recs, maxResults, minRating, acc).Ok? && |acc| < maxResults
    ensures Gather(recs, maxResults, minRating, acc).value
      == acc + Take(Kept(recs, minRating), maxResults - |acc|)
    decreases |recs|
  {
    if recs == [] {
      assert acc + [] == acc;
    } else {
      GatherUnfold(recs, maxResults, minRating, acc);
      var rec := recs[0];
      var rating := RatingOf(rec.rating);
      var rest := Kept(recs[1..], minRating);
      if RatedBelow(rating, minRating) {
        GatherTakes(recs[1..], maxResults, minRating, acc);
      } else {
        var head := if rec.asin != [] then [ToProduct(rec, rating, PriceOf(rec.price).value)] else [];
        if head == [] {
          assert acc + head == acc && head + rest == rest;
          GatherTakes(recs[1..], maxResults, minRating, acc);
        } else {
          var n := maxResults - |acc| - 1;
          TakeCons(head[0], rest, n);
          assert [head[0]] == head;
          if n > 0 {
            GatherTakes(recs[1..], maxResults, minRating, acc + head);
          }
        }
      }
    }
  }

  /** The loop fails only with the error of a price it read; with every price readable
      it does not fail. */
  lemma {:induction false} GatherFails(
    recs: seq<RawRecord>, maxResults: int, minRating: real, acc: seq<Product>)
    ensures Gather(recs, maxResults, minRating, acc).Err? ==>
      exists k :: 0 <= k < |recs| && PriceOf(recs[k].price) == Err(Gather(recs, maxResults, minRating, acc).error)
    ensures (forall k :: 0 <= k < |recs| ==> PriceOf(recs[k].price).Ok?) ==>
      Gather(recs, maxResults, minRating, acc).Ok?
    decreases |recs|
  {
    if recs != [] {
      var rec := recs[0];
      var rating := RatingOf(rec.rating);
      var kept := if rec.asin != [] && PriceOf(rec.price).Ok?
        then acc + [ToProduct(rec, rating, PriceOf(rec.price).value)] else acc;
      GatherFails(recs[1..], maxResults, minRating, acc);
      GatherFails(recs[1..], maxResults, minRating, kept);
      forall k | 0 <= k < |recs[1..]| ensures recs[1..][k] == recs[k + 1] { }
    }
  }

  /** Every product of a successful search is the product record of one of the
      provider's records: one with an ASIN, not rated below the minimum, whose price
      could be read. */
  lemma SearchedFromRecords(provider: Provider, query: string, maxResults: int, minRating: real)
    ensures var r := Searched(provider, query, maxResults, minRating);
      r.success ==>
        provider(RequestFor(query)).Ok?
        && forall p :: p in r.products ==> FromRecord(p, provider(RequestFor(query)).value, minRating)
  {
    var r := Searched(provider, query, maxResults, minRating);
    if r.success {
      var recs := provider(RequestFor(query)).value;
      var ps := Gather(recs, maxResults, minRating, []).value;
      GatherFromRecords(recs, maxResults, minRating, []);
      SortDescPermutes(ps);
      forall p | p in r.products
        ensures FromRecord(p, recs, minRating)
      {
        assert p in multiset(r.products);
        var k :| 0 <= k < |ps| && ps[k] == p;
      }
    }
  }

  /** Every outcome has the promised shape: a failure carries an error and no products;
      a success carries admissible products, non-increasing by (rating, reviews), at
      most `maxResults` of them (one, when `maxResults` is below 1), counted in
      `totalResults`. */
  lemma SearchedShape(provider: Provider, query: string, maxResults: int, minRating: real)
    ensures var r := Searched(provider, query, maxResults, minRating);
      (!r.success ==> r.products == [] && r.totalResults == 0 && r.error.Some?)
      && (r.success ==>
            r.error == None && r.totalResults == |r.products|
            && |r.products| <= (if maxResults >= 1 then maxResults else 1)
            && Ranked(r.products)
            && forall k :: 0 <= k < |r.products| ==> Admissible(r.products[k], minRating))
  {
    var r := Searched(provider, query, maxResults, minRating);
    if r.success {
      var recs := provider(RequestFor(query)).value;
      var ps := Gather(recs, maxResults, minRating, []).value;
      GatherAdmissible(recs, maxResults, minRating, []);
      SortDescRanked(ps);
      SortDescPermutes(ps);
      forall k | 0 <= k < |r.products| ensures Admissible(r.products[k], minRating) {
        assert r.products[k] in multiset(ps);
      }
    }
  }

  /** A successful search returns the first `maxResults` kept products, ranked: the same
      products, and among equal keys in the provider's order. */
  lemma SearchedRanksKept(provider: Provider, query: string, maxResults: int, minRating: real)
    requires maxResults >= 1
    requires Searched(provider, query, maxResults, minRating).success
    ensures provider(RequestFor(query)).Ok?
    ensures var r := Searched(provider, query, maxResults, minRating);
      var top := Take(Kept(provider(RequestFor(query)).value, minRating), maxResults);
      r.products == SortDesc(top) && multiset(r.products) == multiset(top)
      && forall rating: real, reviews: int :: WithKey(r.products, rating, reviews) == WithKey(top, rating, reviews)
  {
    var recs := provider(RequestFor(query)).value;
    GatherTakes(recs, maxResults, minRating, []);
    var top := Take(Kept(recs, minRating), maxResults);
    assert [] + top == top;
    SortDescPermutes(top);
    forall rating: real, reviews: int ensures WithKey(SortDesc(top), rating, reviews) == WithKey(top, rating, reviews) {
      SortDescStable(top, rating, reviews);
    }
  }

  /** Any exception becomes the failure record with its text: the provider's, or a
      price's that the loop read. When every price is readable, only the provider can
      make the search fail. */
  lemma SearchedFailures(provider: Provider, query: string, maxResults: int, minRating: real)
    ensures provider(RequestFor(query)).Err? ==>
      Searched(provider, query, maxResults, minRating) == Failure(provider(RequestFor(query)).error)
    ensures var r := Searched(provider, query, maxResults, minRating);
      !r.success && provider(RequestFor(query)).Ok? ==>
        var recs := provider(RequestFor(query)).value;
        exists k :: 0 <= k < |recs| && PriceOf(recs[k].price) == Err(r.error.value)
    ensures provider(RequestFor(query)).Ok?
      && (forall k :: 0 <= k < |provider(RequestFor(query)).value| ==>
            PriceOf(provider(RequestFor(query)).value[k].price).Ok?)
      ==> Searched(provider, query, maxResults, minRating).success
  {
    if provider(RequestFor(query)).Ok? {
      GatherFails(provider(RequestFor(query)).value, maxResults, minRating, []);
    }
  }
}
