/**
 * `search_products`: the query variants tried in order until one yields products, the
 * last error kept for the failure answer, and the answer text listing the first eight
 * products with their cart data.
 */
module SearchOrchestrator {
  import opened Basics
  import opened Text
  import opened QueryOptimizer
  import opened Catalog
  import opened Ranking
  import opened ProductSearch
  import opened Display

  /** `search_amazon_products`' default minimum rating. */
  const DefaultMinRating: real := 3.5

  /** One search with the default minimum rating. */
  function Attempt(provider: Provider, query: string, maxResults: int): SearchResult {
    Searched(provider, query, maxResults, DefaultMinRating)
  }

  /** An attempt that ends the search: it succeeded with at least one product. */
  predicate Hit(r: SearchResult) {
    r.success && r.products != []
  }

  /** What a failed attempt leaves as the last error: `search_results.get('error',
      'No products found')`. */
  function ErrorOf(r: SearchResult): string {
    if r.error.Some? then r.error.value else "No products found"
  }

  /** The products of the first attempt that hits, or the last error after all miss. */
  datatype Outcome = Found(products: seq<Product>) | NotFound(lastError: Option<string>)

  /** The searches `search_amazon_products(q, max_results=maxResults)`. */
  function Searcher(provider: Provider, maxResults: int): string -> SearchResult {
    q => Attempt(provider, q, maxResults)
  }

  /** Trying `queries` in order with `search`, `last` being the error recorded so far. */
  function Tried(search: string -> SearchResult, queries: seq<string>, last: Option<string>)
    : Outcome
    decreases |queries|
  {
    if queries == [] then NotFound(last)
    else
      var r := search(queries[0]);
      if Hit(r) then Found(r.products)
      else Tried(search, queries[1..], Some(ErrorOf(r)))
  }

  /** The attempts stop at the first hit and return its products; when none hits, the
      error of the last one is kept. */
  lemma {:induction false} TriedFirstHit(
    search: string -> SearchResult, queries: seq<string>, last: Option<string>)
    ensures var o := Tried(search, queries, last);
      (o.Found? ==>
         exists j :: 0 <= j < |queries| && Hit(search(queries[j]))
           && (forall m :: 0 <= m < j ==> !Hit(search(queries[m])))
           && o.products == search(queries[j]).products)
      && (o.NotFound? ==>
         (forall j :: 0 <= j < |queries| ==> !Hit(search(queries[j])))
         && o.lastError
            == if queries == [] then last else Some(ErrorOf(search(queries[|queries| - 1]))))
    decreases |queries|
  {
    if queries != [] {
      var r := search(queries[0]);
      if !Hit(r) {
        var rest := queries[1..];
        TriedFirstHit(search, rest, Some(ErrorOf(r)));
        assert forall m :: 1 <= m < |queries| ==> queries[m] == rest[m - 1];
        var o := Tried(search, queries, last);
        if o.Found? {
          var j :| 0 <= j < |rest| && Hit(search(rest[j]))
            && (forall m :: 0 <= m < j ==> !Hit(search(rest[m])))
            && o.products == search(rest[j]).products;
          assert Hit(search(queries[j + 1]));
        }
      }
    }
  }

  predicate AsksForBest(questionLower: string) {
    Contains(questionLower, "best") || Contains(questionLower, "top")
    || Contains(questionLower, "good") || Contains(questionLower, "recommend")
  }

  predicate AsksForCheap(questionLower: string) {
    Contains(questionLower, "cheap") || Contains(questionLower, "budget")
  }

  /** The query variants: the question, the optimised question, "best rated …" when it
      asks for the best, "budget …" when it asks for cheap products. */
  function Attempts(question: string): (a: seq<string>)
    ensures |a| == 2 + (if AsksForBest(Lower(question)) then 1 else 0)
                     + (if AsksForCheap(Lower(question)) then 1 else 0)
    ensures a[0] == question && a[1] == Optimized(question)
    ensures AsksForBest(Lower(question)) ==> a[2] == "best rated " + Optimized(question)
    ensures AsksForCheap(Lower(question)) ==> a[|a| - 1] == "budget " + Optimized(question)
  {
    var o, ql := Optimized(question), Lower(question);
    [question, o]
    + (if AsksForBest(ql) then ["best rated " + o] else [])
    + (if AsksForCheap(ql) then ["budget " + o] else [])
  }

  /** `product_list`: the answer, the ASINs and the products. */
  datatype ProductList = ProductList(answer: string, asins: seq<string>, products: seq<Product>)

  /** The answer when no attempt found products; `str(None)` is never needed, as there
      are always attempts. */
  function FailureAnswer(question: string, lastError: Option<string>): (r: string)
    ensures StartsWith(r, "No products found matching '" + question + "'")
    ensures var e := if lastError.Some? then lastError.value else "None";
      |e| <= |r| && r[|r| - |e|..] == e
  {
    var head := "No products found matching '" + question + "'";
    var e := if lastError.Some? then lastError.value else "None";
    var r := head + ". Try being more specific or using different keywords. Error: " + e;
    assert r[..|head|] == head;
    r
  }

  function Header(n: nat, question: string): string {
    "\U{1F6CD}\U{FE0F} **Found " + NatToString(n) + " high-quality products for '" + question + "'**\n\n"
  }

  const Footer: string :=
    "\U{1F3AF} **Ready to Shop?**\n"
    + "• Tell me which items you'd like to add to your cart (e.g., 'Add item 1 and 3')\n"
    + "• Say 'add all to cart' to add all products\n"
    + "• Or ask me to find more specific products!\n\n"
    + "\U{1F4A1} **Pro Tip**: I can help you add items to your cart and complete your purchase seamlessly!"

  /** The product page of an ASIN. */
  function Link(asin: string): string {
    "https://www.amazon.com/dp/" + asin
  }

  /** The stars, the rating and the review count, shown only for a positive rating; the
      count only when it is non-zero. */
  function RatingPart(fmt: Formats, p: Product): (r: string)
    ensures p.rating <= 0.0 ==> r == ""
    ensures p.rating > 0.0 ==> StartsWith(r, " | " + Stars(p.rating) + " " + fmt.decimal(p.rating) + "/5")
    ensures p.rating > 0.0 && p.reviews != 0 ==> Contains(r, " (" + IntToString(p.reviews) + " reviews)")
    ensures p.rating > 0.0 && p.reviews == 0 ==> r == " | " + Stars(p.rating) + " " + fmt.decimal(p.rating) + "/5"
  {
    if p.rating > 0.0 then
      var shown := " | " + Stars(p.rating) + " " + fmt.decimal(p.rating) + "/5";
      var reviews := " (" + IntToString(p.reviews) + " reviews)";
      assert (shown + reviews)[..|shown|] == shown;
      if p.reviews != 0 then
        ContainsMiddle(shown, reviews, "");
        assert shown + reviews + "" == shown + reviews;
        shown + reviews
      else shown
    else ""
  }

  /** The first line of an entry: its number and the title cut to 80 characters. */
  function EntryTitle(i: nat, p: Product): string {
    "**" + NatToString(i) + ". " + Truncate(p.title, 80) + "**\n"
  }

  function PriceLine(fmt: Formats, p: Product): string {
    "   \U{1F4B0} **Price**: " + PriceText(fmt, p.price)
  }

  function PrimePart(p: Product): string {
    if p.prime then " | \U{1F69A} **Prime Eligible**" else ""
  }

  function AsinLine(p: Product): string {
    "\n   \U{1F517} **ASIN**: `" + p.asin + "`"
  }

  function LinkLine(p: Product): string {
    "\n   \U{1F6D2} **Link**: " + Link(p.asin)
  }

  /** The cart data: the ASIN and the price as shown. */
  function CartData(fmt: Formats, p: Product): string {
    "ASIN: " + p.asin + ", Price: " + PriceText(fmt, p.price)
  }

  function CartLine(fmt: Formats, p: Product): string {
    "\n   \U{1F4E6} **Cart Data**: " + CartData(fmt, p) + "\n\n"
  }

  /** Everything of an entry after its first line. */
  function EntryBody(fmt: Formats, p: Product): string {
    PriceLine(fmt, p) + RatingPart(fmt, p) + PrimePart(p) + AsinLine(p) + LinkLine(p) + CartLine(fmt, p)
  }

  /** The numbered entry of a product. */
  function Entry(fmt: Formats, i: nat, p: Product): string {
    EntryTitle(i, p) + EntryBody(fmt, p)
  }

  /** The numbered entry of each product. */
  function EntryOf(fmt: Formats): (nat, Product) -> string {
    (i: nat, p: Product) => Entry(fmt, i, p)
  }

  /** The entries of `ps` rendered by `entry`, numbered from 1, one after the other. */
  function Listing(entry: (nat, Product) -> string, ps: seq<Product>): string
    decreases |ps|
  {
    if ps == [] then "" else Listing(entry, ps[..|ps| - 1]) + entry(|ps|, ps[|ps| - 1])
  }

  /** The answer for the products found, before `strip()`: a header counting all of
      them, entries for the first eight, and the footer. */
  function SuccessAnswer(fmt: Formats, question: string, ps: seq<Product>): string {
    Header(|ps|, question) + Listing(EntryOf(fmt), ps[..Min(8, |ps|)]) + Footer
  }

  /** The ASINs of the products that have one, in order. */
  function AsinsOf(ps: seq<Product>): seq<string> {
    if ps == [] then []
    else AsinsOf(ps[..|ps| - 1]) + (if ps[|ps| - 1].asin != [] then [ps[|ps| - 1].asin] else [])
  }

  /** The result of `search_products(user_id, question)` when the query variants are
      `attempts` and the searches are `search`. */
  function ProductListFrom(
    search: string -> SearchResult, fmt: Formats, question: string, attempts: seq<string>)
    : ProductList
  {
    match Tried(search, attempts, None)
    case NotFound(e) => ProductList(FailureAnswer(question, e), [], [])
    case Found(ps) => ProductList(Strip(SuccessAnswer(fmt, question, ps)), AsinsOf(ps), ps)
  }

  method SearchProducts(provider: Provider, fmt: Formats, question: string)
    returns (result: ProductList)
    ensures result == ProductListFrom(Searcher(provider, 12), fmt, question, Attempts(question))
  {
    var attempts := SearchAttempts(question);
    var outcome := FirstHit(provider, 12, attempts);
    if outcome.NotFound? {
      return ProductList(FailureAnswer(question, outcome.lastError), [], []);
    }
    var products := outcome.products;
    var asins := CollectAsins(products);
    var answer := RenderAnswer(fmt, question, products);
    return ProductList(Strip(answer), asins, products);
  }

  /** The query variants, built as `search_products` builds them. */
  method SearchAttempts(question: string) returns (attempts: seq<string>)
    ensures attempts == Attempts(question)
  {
    var optimized := OptimizeSearchQuery(question);
    attempts := [question, optimized];
    var questionLower := Lower(question);
    if AsksForBest(questionLower) {
      attempts := attempts + ["best rated " + optimized];
    }
    if AsksForCheap(questionLower) {
      attempts := attempts + ["budget " + optimized];
    }
  }

  /** The search loop: each variant in turn until one yields products. */
  method FirstHit(provider: Provider, maxResults: int, attempts: seq<string>)
    returns (outcome: Outcome)
    ensures outcome == Tried(Searcher(provider, maxResults), attempts, None)
  {
    ghost var search := Searcher(provider, maxResults);
    var lastError: Option<string> := None;
    var i := 0;
    while i < |attempts|
      invariant 0 <= i <= |attempts|
      invariant Tried(search, attempts, None) == Tried(search, attempts[i..], lastError)
    {
      var r := SearchAmazonProducts(provider, attempts[i], maxResults, DefaultMinRating);
      assert r == search(attempts[i]);
      TriedStep(search, attempts, i, lastError);
      if r.success && r.products != [] {
        return Found(r.products);
      }
      lastError := Some(ErrorOf(r));
      i := i + 1;
    }
    return NotFound(lastError);
  }

  /** One turn of the search loop. */
  lemma TriedStep(search: string -> SearchResult, queries: seq<string>, i: nat, last: Option<string>)
    requires i < |queries|
    ensures Tried(search, queries[i..], last)
      == if Hit(search(queries[i])) then Found(search(queries[i]).products)
         else Tried(search, queries[i + 1..], Some(ErrorOf(search(queries[i]))))
  {
    assert queries[i..][1..] == queries[i + 1..];
  }

  /** `[p["asin"] for p in products if p.get("asin")]`. */
  method CollectAsins(products: seq<Product>) returns (asins: seq<string>)
    ensures asins == AsinsOf(products)
  {
    asins := [];
    for k := 0 to |products|
      invariant asins == AsinsOf(products[..k])
    {
      assert products[..k + 1][..k] == products[..k];
      if products[k].asin != [] {
        asins := asins + [products[k].asin];
      }
    }
    assert products[..|products|] == products;
  }

  /** The answer text: the header, the entries of the first eight products, the footer. */
  method RenderAnswer(fmt: Formats, question: string, products: seq<Product>)
    returns (answer: string)
    ensures answer == SuccessAnswer(fmt, question, products)
  {
    answer := Header(|products|, question);
    answer := AppendEntries(EntryOf(fmt), answer, products[..Min(8, |products|)]);
    answer := answer + Footer;
  }

  /** The entry loop: `answer` grows by one numbered entry per product. */
  method AppendEntries(entry: (nat, Product) -> string, start: string, shown: seq<Product>)
    returns (answer: string)
    ensures answer == start + Listing(entry, shown)
  {
    answer := start;
    for k := 0 to |shown|
      invariant answer == start + Listing(entry, shown[..k])
    {
      assert shown[..k + 1][..k] == shown[..k];
      answer := answer + entry(k + 1, shown[k]);
    }
    assert shown[..|shown|] == shown;
  }

  /** The listing holds the entry of each of its products. */
  lemma {:induction false} ListingHolds(entry: (nat, Product) -> string, ps: seq<Product>, i: nat)
    requires i < |ps|
    ensures Contains(Listing(entry, ps), entry(i + 1, ps[i]))
    decreases |ps|
  {
    var n := |ps| - 1;
    var front := ps[..n];
    if i < n {
      assert front[i] == ps[i];
      ListingHolds(entry, front, i);
      ContainsRight(Listing(entry, front), entry(|ps|, ps[n]), entry(i + 1, ps[i]));
    } else {
      ContainsSelf(entry(i + 1, ps[i]));
      ContainsLeft(Listing(entry, front), entry(|ps|, ps[n]), entry(i + 1, ps[i]));
    }
  }

  /** The entries of `ps` rendered by `entry`, numbered from 1. */
  function Entries(entry: (nat, Product) -> string, ps: seq<Product>): (es: seq<string>)
    ensures |es| == |ps| && forall i :: 0 <= i < |ps| ==> es[i] == entry(i + 1, ps[i])
  {
    seq(|ps|, i requires 0 <= i < |ps| => entry(i + 1, ps[i]))
  }

  /** The listing is the entries of its products, one per product, one after the other. */
  lemma {:induction false} ListingIsEntries(entry: (nat, Product) -> string, ps: seq<Product>)
    ensures Listing(entry, ps) == Concat(Entries(entry, ps))
    decreases |ps|
  {
    if ps != [] {
      var n := |ps| - 1;
      var front := ps[..n];
      ListingIsEntries(entry, front);
      assert Entries(entry, ps) == Entries(entry, front) + [entry(|ps|, ps[n])];
      ConcatAppend(Entries(entry, front), entry(|ps|, ps[n]));
    }
  }

  /** The success answer: the header, the entries of the first min(8, n) products, the
      footer. */
  lemma SuccessAnswerEntries(fmt: Formats, question: string, ps: seq<Product>)
    ensures var es := Entries(EntryOf(fmt), ps[..Min(8, |ps|)]);
      |es| == Min(8, |ps|)
      && SuccessAnswer(fmt, question, ps) == Header(|ps|, question) + Concat(es) + Footer
  {
    ShownEntries(EntryOf(fmt), ps, Min(8, |ps|));
  }

  /** Entry `i` of the success answer is product `i`'s, numbered `i + 1`. */
  lemma SuccessAnswerEntry(fmt: Formats, ps: seq<Product>, i: nat)
    requires i < Min(8, |ps|)
    ensures Entries(EntryOf(fmt), ps[..Min(8, |ps|)])[i] == Entry(fmt, i + 1, ps[i])
  {
    var entry := EntryOf(fmt);
    assert Entries(entry, ps[..Min(8, |ps|)])[i] == entry(i + 1, ps[i]) by {
      ShownEntries(entry, ps, Min(8, |ps|));
    }
    EntryOfApplies(fmt, i + 1, ps[i]);
  }

  lemma EntryOfApplies(fmt: Formats, n: nat, p: Product)
    ensures EntryOf(fmt)(n, p) == Entry(fmt, n, p)
  {
  }

  /** The first `n` entries, each numbered from 1, make up the listing of the first `n`
      products. */
  lemma ShownEntries(entry: (nat, Product) -> string, ps: seq<Product>, n: nat)
    requires n <= |ps|
    ensures var es := Entries(entry, ps[..n]);
      (forall i :: 0 <= i < n ==> es[i] == entry(i + 1, ps[i]))
      && Listing(entry, ps[..n]) == Concat(es)
  {
    var shown := ps[..n];
    ListingIsEntries(entry, shown);
    assert forall i :: 0 <= i < n ==> shown[i] == ps[i];
  }

  /** The answer holds, for each of the first eight products, its link and its cart
      data, and its stars and rating when it is rated. */
  lemma AnswerShows(fmt: Formats, question: string, ps: seq<Product>, i: nat)
    requires i < Min(8, |ps|)
    ensures Contains(SuccessAnswer(fmt, question, ps), Link(ps[i].asin))
    ensures Contains(SuccessAnswer(fmt, question, ps), CartData(fmt, ps[i]))
    ensures ps[i].rating > 0.0 ==> Contains(SuccessAnswer(fmt, question, ps),
      " | " + Stars(ps[i].rating) + " " + fmt.decimal(ps[i].rating) + "/5")
  {
    var shown := ps[..Min(8, |ps|)];
    var h, l := Header(|ps|, question), Listing(EntryOf(fmt), shown);
    var e := Entry(fmt, i + 1, ps[i]);
    assert shown[i] == ps[i];
    ListingHolds(EntryOf(fmt), shown, i);
    ContainsLeft(h, l, e);
    ContainsRight(h + l, Footer, e);
    EntryShows(fmt, i + 1, ps[i]);
    ContainsTrans(h + l + Footer, e, Link(ps[i].asin));
    ContainsTrans(h + l + Footer, e, CartData(fmt, ps[i]));
    if ps[i].rating > 0.0 {
      ContainsTrans(h + l + Footer, e,
        " | " + Stars(ps[i].rating) + " " + fmt.decimal(ps[i].rating) + "/5");
    }
  }

  /** `strip()` leaves the success answer as it is: it starts with an emoji and ends with
      "!". */
  lemma SuccessAnswerStripped(fmt: Formats, question: string, ps: seq<Product>)
    ensures Strip(SuccessAnswer(fmt, question, ps)) == SuccessAnswer(fmt, question, ps)
  {
    var s := SuccessAnswer(fmt, question, ps);
    var h := Header(|ps|, question);
    assert s[0] == h[0] == '\U{1F6CD}';
    assert s[|s| - 1] == Footer[|Footer| - 1] == '!';
    StripKeeps(s);
  }

  /** Every product the loop keeps has an ASIN, so the ASINs are those of all the
      products, not only of the eight shown. */
  lemma {:induction false} AsinsOfAll(ps: seq<Product>)
    requires forall k :: 0 <= k < |ps| ==> ps[k].asin != []
    ensures |AsinsOf(ps)| == |ps| && forall k :: 0 <= k < |ps| ==> AsinsOf(ps)[k] == ps[k].asin
    decreases |ps|
  {
    if ps != [] {
      AsinsOfAll(ps[..|ps| - 1]);
    }
  }

  /** The searches only return products with an ASIN. */
  lemma SearcherKeepsAsins(provider: Provider, maxResults: int, q: string)
    ensures var r := Searcher(provider, maxResults)(q);
      r.success ==> forall k :: 0 <= k < |r.products| ==> r.products[k].asin != []
  {
    SearchedShape(provider, q, maxResults, DefaultMinRating);
  }

  /** When no variant hits: no ASINs, no products, and the answer names the last
      variant's error. */
  lemma SearchProductsMiss(
    search: string -> SearchResult, fmt: Formats, question: string, a: seq<string>)
    requires a != []
    ensures var r := ProductListFrom(search, fmt, question, a);
      r.products == [] <==> forall j :: 0 <= j < |a| ==> !Hit(search(a[j]))
    ensures var r := ProductListFrom(search, fmt, question, a);
      r.products == [] ==>
        r.asins == [] && r.answer == FailureAnswer(question, Some(ErrorOf(search(a[|a| - 1]))))
  {
    TriedFirstHit(search, a, None);
  }

  /** When a variant hits, for searches that only return products with an ASIN
      (`SearcherKeepsAsins`): the products of the first variant that hits, the ASINs of
      all of them, and the answer listing them. */
  lemma SearchProductsHit(
    search: string -> SearchResult, fmt: Formats, question: string, a: seq<string>)
    requires forall q :: search(q).success ==>
      forall k :: 0 <= k < |search(q).products| ==> search(q).products[k].asin != []
    ensures var r := ProductListFrom(search, fmt, question, a);
      r.products != [] ==>
        (exists j :: 0 <= j < |a| && Hit(search(a[j]))
           && (forall m :: 0 <= m < j ==> !Hit(search(a[m])))
           && r.products == search(a[j]).products)
        && |r.asins| == |r.products|
        && (forall k :: 0 <= k < |r.asins| ==> r.asins[k] == r.products[k].asin)
        && r.answer == SuccessAnswer(fmt, question, r.products)
  {
    TriedFirstHit(search, a, None);
    var o := Tried(search, a, None);
    if o.Found? {
      var j :| 0 <= j < |a| && Hit(search(a[j])) && o.products == search(a[j]).products;
      var r := ProductListFrom(search, fmt, question, a);
      assert r.products == o.products && r.asins == AsinsOf(o.products);
      AsinsOfAll(o.products);
      assert r.answer == SuccessAnswer(fmt, question, r.products) by {
        SuccessAnswerStripped(fmt, question, o.products);
      }
    }
  }

  /** An entry shows the number and the cut title first, and holds the product's link and
      cart data; its stars and rating, when the rating is positive. */
  lemma EntryShows(fmt: Formats, i: nat, p: Product)
    ensures StartsWith(Entry(fmt, i, p), "**" + NatToString(i) + ". " + Truncate(p.title, 80) + "**\n")
    ensures Contains(Entry(fmt, i, p), Link(p.asin))
    ensures Contains(Entry(fmt, i, p), CartData(fmt, p))
    ensures p.rating > 0.0 ==>
      Contains(Entry(fmt, i, p), " | " + Stars(p.rating) + " " + fmt.decimal(p.rating) + "/5")
  {
    var t, pl, rp, pp, al, ll, cl :=
      EntryTitle(i, p), PriceLine(fmt, p), RatingPart(fmt, p), PrimePart(p), AsinLine(p),
      LinkLine(p), CartLine(fmt, p);
    var body := EntryBody(fmt, p);
    assert (t + body)[..|t|] == t;
    // The link, at the end of the link line.
    ContainsSelf(Link(p.asin));
    ContainsLeft("\n   \U{1F6D2} **Link**: ", Link(p.asin), Link(p.asin));
    ContainsLeft(pl + rp + pp + al, ll, Link(p.asin));
    ContainsRight(pl + rp + pp + al + ll, cl, Link(p.asin));
    ContainsLeft(t, body, Link(p.asin));
    // The cart data, inside the last line.
    var cd := CartData(fmt, p);
    ContainsSelf(cd);
    ContainsLeft("\n   \U{1F4E6} **Cart Data**: ", cd, cd);
    ContainsRight("\n   \U{1F4E6} **Cart Data**: " + cd, "\n\n", cd);
    ContainsLeft(pl + rp + pp + al + ll, cl, cd);
    ContainsLeft(t, body, cd);
    if p.rating > 0.0 {
      var st := " | " + Stars(p.rating) + " " + fmt.decimal(p.rating) + "/5";
      assert Contains(rp, st);
      ContainsLeft(pl, rp, st);
      ContainsRight(pl + rp, pp, st);
      ContainsRight(pl + rp + pp, al, st);
      ContainsRight(pl + rp + pp + al, ll, st);
      ContainsRight(pl + rp + pp + al + ll, cl, st);
      ContainsLeft(t, body, st);
    }
  }
}
