/**
 * `generate_packing_list`: the first ten items of the packing list, each searched with
 * three query variants until one yields products; the first three products of each found
 * item, the ASINs per found item, the items found nothing for, and the answer text.
 */
module PackingOrchestrator {
  import opened Basics
  import opened Text
  import opened Catalog
  import opened ProductSearch
  import opened Display
  import opened SearchOrchestrator
  import opened PackingList

  /** The query variants for one item, in the order they are tried. */
  function ItemQueries(item: string): seq<string> {
    ["travel " + item, "best " + item, item]
  }

  /** The products kept for an item: the first three of the first variant that hits, or
      none when no variant hits. */
  function ItemProducts(search: string -> SearchResult, item: string): seq<Product> {
    match Tried(search, ItemQueries(item), None)
    case Found(ps) => Take(ps, 3)
    case NotFound(_) => []
  }

  /** `{"item": item, "products": products}`. */
  datatype ItemResult = ItemResult(item: string, products: seq<Product>)

  /** What the item loop has gathered: the found items with their products, the ASINs
      of each found item, the items without products. */
  datatype Progress = Progress(
    results: seq<ItemResult>, asins: map<string, seq<string>>, failed: seq<string>)

  /** The item loop over `items`. */
  function Scan(search: string -> SearchResult, items: seq<string>): Progress
    decreases |items|
  {
    if items == [] then Progress([], map[], [])
    else
      var item := items[|items| - 1];
      Step(Scan(search, items[..|items| - 1]), item, ItemProducts(search, item))
  }

  /** One item recorded: found with its products and ASINs, or failed. */
  function Step(st: Progress, item: string, ps: seq<Product>): Progress {
    if ps != [] then
      Progress(st.results + [ItemResult(item, ps)], st.asins[item := AsinsOf(ps)], st.failed)
    else
      Progress(st.results, st.asins, st.failed + [item])
  }

  /** The text added for each item, by `section`, one after the other. */
  function Body(
    section: (string, seq<Product>) -> string, search: string -> SearchResult, items: seq<string>)
    : string
    decreases |items|
  {
    if items == [] then ""
    else
      var item := items[|items| - 1];
      Body(section, search, items[..|items| - 1]) + section(item, ItemProducts(search, item))
  }

  function PackHeader(question: string): string {
    "\U{1F392} **Smart Packing List for: " + question + "**\n\n"
  }

  function ItemHeading(fmt: Formats, item: string): string {
    "\U{1F4E6} **" + fmt.title(item) + "**\n"
  }

  const TopLine: string := "   \U{1F3C6} **Top Recommendations:**\n"

  const NotFoundLine: string := "   \U{274C} No specific products found - search manually\n\n"

  /** The stars and the rating, for a positive rating. */
  function PackRating(fmt: Formats, p: Product): string {
    if p.rating > 0.0 then " | " + Stars(p.rating) + " " + fmt.decimal(p.rating) + "/5" else ""
  }

  /** A numbered product line: the title cut to 50 characters, the price, the rating,
      Prime, the ASIN. */
  function PackEntry(fmt: Formats, i: nat, p: Product): string {
    "   " + NatToString(i) + ". **" + Truncate(p.title, 50) + "**\n"
    + "      \U{1F4B0} " + PriceText(fmt, p.price) + PackRating(fmt, p)
    + (if p.prime then " | \U{1F69A} Prime" else "")
    + "\n      \U{1F6D2} ASIN: " + p.asin + "\n"
  }

  function PackEntryOf(fmt: Formats): (nat, Product) -> string {
    (i: nat, p: Product) => PackEntry(fmt, i, p)
  }

  /** The section of a found item. */
  function FoundSection(fmt: Formats, item: string, ps: seq<Product>): string {
    ItemHeading(fmt, item) + TopLine + Listing(PackEntryOf(fmt), ps) + "\n"
  }

  /** The section of an item: its products, or the advice to search manually. */
  function SectionOf(fmt: Formats): (string, seq<Product>) -> string {
    (item: string, ps: seq<Product>) =>
      if ps != [] then FoundSection(fmt, item, ps) else ItemHeading(fmt, item) + NotFoundLine
  }

  /** The first line of the summary: how many items were found. */
  function FoundLine(found: nat): string {
    "\U{2705} **Found products for " + NatToString(found) + " items**\n"
  }

  /** The line naming the items to search for by hand. */
  function ManualLine(failed: seq<string>): string {
    "\U{26A0}\U{FE0F} **Manual search needed for:** " + Join(", ", failed) + "\n"
  }

  const Tip: string := "\n\U{1F4A1} **Tip:** Ask me to add any items to your cart!"

  /** The summary after the sections, when some item was found: the count, the items
      without products when there are any, and the tip, which ends the answer. */
  function Summary(found: nat, failed: seq<string>): (r: string)
    ensures StartsWith(r, FoundLine(found))
    ensures failed != [] ==> Contains(r, ManualLine(failed))
    ensures failed == [] ==> r == FoundLine(found) + Tip
    ensures |Tip| <= |r| && r[|r| - |Tip|..] == Tip
  {
    var manual := if failed != [] then ManualLine(failed) else "";
    var r := FoundLine(found) + manual + Tip;
    assert r[..|FoundLine(found)|] == FoundLine(found);
    ContainsMiddle(FoundLine(found), manual, Tip);
    assert failed == [] ==> FoundLine(found) + manual == FoundLine(found);
    r
  }

  /** The whole answer when no item was found: it names the question, and `strip()`
      leaves it as it is. */
  function Unable(question: string): (r: string)
    ensures Contains(r, question)
    ensures Strip(r) == r
  {
    var head := "Unable to find " + "specific product recommendations for your packing list: ";
    var tail := ". Try searching for " + "individual items.";
    var r := head + question + tail;
    ContainsMiddle(head, question, tail);
    assert r[0] == head[0] == 'U';
    assert r[|r| - 1] == tail[|tail| - 1] == "individual items."[16] == '.';
    StripKeeps(r);
    r
  }

  /** `packing_list`: the answer, the ASINs per found item, the found items. */
  datatype PackingResult = PackingResult(
    answer: string, asins: map<string, seq<string>>, items: seq<ItemResult>)

  /** At most ten items are searched. */
  function Priority(items: seq<string>): seq<string> {
    items[..Min(10, |items|)]
  }

  /** The result of `generate_packing_list(user_id, question)` for the packing list
      `items`, when the searches are `search`. */
  function PackingFrom(
    search: string -> SearchResult, fmt: Formats, question: string, items: seq<string>)
    : PackingResult
  {
    var priority := Priority(items);
    var st := Scan(search, priority);
    var answer :=
      if st.results != [] then
        PackHeader(question) + Body(SectionOf(fmt), search, priority)
        + Summary(|st.results|, st.failed)
      else Unable(question);
    PackingResult(Strip(answer), st.asins, st.results)
  }

  method GeneratePackingList(provider: Provider, fmt: Formats, question: string)
    returns (result: PackingResult)
    ensures result
      == PackingFrom(Searcher(provider, 4), fmt, question, SmartPackingList(question))
  {
    var packingItems := GenerateSmartPackingList(question);
    var priorityItems := packingItems[..Min(10, |packingItems|)];
    var st, answer := SearchItems(provider, fmt, PackHeader(question), priorityItems);
    result := Conclude(question, st, answer);
  }

  /** The answer closed with the summary, or replaced when nothing was found. */
  method Conclude(question: string, st: Progress, answer: string) returns (result: PackingResult)
    ensures result.asins == st.asins && result.items == st.results
    ensures result.answer
      == Strip(if st.results != [] then answer + Summary(|st.results|, st.failed) else Unable(question))
    ensures st.results == [] ==> result.answer == Unable(question)
    ensures st.results != [] && |answer| > 0 && !IsSpace(answer[0])
      ==> result.answer == answer + Summary(|st.results|, st.failed)
  {
    var text := answer;
    if st.results != [] {
      text := text + Summary(|st.results|, st.failed);
      if |answer| > 0 && !IsSpace(answer[0]) {
        SummaryKeepsEnd(answer, |st.results|, st.failed);
      }
    } else {
      text := Unable(question);
    }
    return PackingResult(Strip(text), st.asins, st.results);
  }

  /** The item loop: search each item, record it as found or failed, append its section. */
  method SearchItems(provider: Provider, fmt: Formats, start: string, items: seq<string>)
    returns (st: Progress, answer: string)
    ensures st == Scan(Searcher(provider, 4), items)
    ensures answer == start + Body(SectionOf(fmt), Searcher(provider, 4), items)
  {
    ghost var search := Searcher(provider, 4);
    ghost var section := SectionOf(fmt);
    var results: seq<ItemResult> := [];
    var asinsDict: map<string, seq<string>> := map[];
    var failedSearches: seq<string> := [];
    answer := start;
    for n := 0 to |items|
      invariant Progress(results, asinsDict, failedSearches) == Scan(search, items[..n])
      invariant answer == start + Body(section, search, items[..n])
    {
      var item := items[n];
      var products := SearchItem(provider, item);
      var text := RenderSection(fmt, item, products);
      ghost var before := Progress(results, asinsDict, failedSearches);
      if products != [] {
        var itemAsins := CollectAsins(products);
        asinsDict := asinsDict[item := itemAsins];
        results := results + [ItemResult(item, products)];
      } else {
        failedSearches := failedSearches + [item];
      }
      assert Progress(results, asinsDict, failedSearches) == Step(before, item, products);
      ScanStep(search, items, n);
      BodyStep(section, search, items, n);
      AppendAssoc(start, Body(section, search, items[..n]), text);
      answer := answer + text;
    }
    assert items[..|items|] == items;
    st := Progress(results, asinsDict, failedSearches);
  }

  lemma ScanStep(search: string -> SearchResult, items: seq<string>, n: nat)
    requires n < |items|
    ensures Scan(search, items[..n + 1])
      == Step(Scan(search, items[..n]), items[n], ItemProducts(search, items[n]))
  {
    assert items[..n + 1][..n] == items[..n];
  }

  lemma BodyStep(
    section: (string, seq<Product>) -> string, search: string -> SearchResult,
    items: seq<string>, n: nat)
    requires n < |items|
    ensures Body(section, search, items[..n + 1])
      == Body(section, search, items[..n]) + section(items[n], ItemProducts(search, items[n]))
  {
    assert items[..n + 1][..n] == items[..n];
  }

  /** The inner search loop for one item, then `[:3]`. */
  method SearchItem(provider: Provider, item: string) returns (products: seq<Product>)
    ensures products == ItemProducts(Searcher(provider, 4), item)
  {
    var outcome := FirstHit(provider, 4, ItemQueries(item));
    products := [];
    if outcome.Found? {
      products := Take(outcome.products, 3);
    }
  }

  /** The text appended for one item, with the product lines appended one by one. */
  method RenderSection(fmt: Formats, item: string, products: seq<Product>) returns (text: string)
    ensures text == SectionOf(fmt)(item, products)
  {
    text := ItemHeading(fmt, item);
    if products != [] {
      text := text + TopLine;
      text := AppendEntries(PackEntryOf(fmt), text, products);
      text := text + "\n";
    } else {
      text := text + NotFoundLine;
    }
  }

  /** The found items, in list order. */
  function FoundItems(search: string -> SearchResult, items: seq<string>): seq<string>
    decreases |items|
  {
    if items == [] then []
    else
      var item := items[|items| - 1];
      FoundItems(search, items[..|items| - 1])
      + (if ItemProducts(search, item) != [] then [item] else [])
  }

  /** The items found nothing for, in list order. */
  function FailedItems(search: string -> SearchResult, items: seq<string>): seq<string>
    decreases |items|
  {
    if items == [] then []
    else
      var item := items[|items| - 1];
      FailedItems(search, items[..|items| - 1])
      + (if ItemProducts(search, item) == [] then [item] else [])
  }

  function ItemNames(results: seq<ItemResult>): seq<string>
    decreases |results|
  {
    if results == [] then [] else ItemNames(results[..|results| - 1]) + [results[|results| - 1].item]
  }

  /** An item's products are the first three of the first variant that hits, and none
      when no variant hits. */
  lemma ItemProductsFirstHit(search: string -> SearchResult, item: string)
    ensures var ps := ItemProducts(search, item);
      (ps == [] <==> forall j :: 0 <= j < 3 ==> !Hit(search(ItemQueries(item)[j])))
      && (ps != [] ==>
            |ps| <= 3
            && exists j :: 0 <= j < 3 && Hit(search(ItemQueries(item)[j]))
                 && (forall m :: 0 <= m < j ==> !Hit(search(ItemQueries(item)[m])))
                 && ps == Take(search(ItemQueries(item)[j]).products, 3))
  {
    var qs := ItemQueries(item);
    TriedFirstHit(search, qs, None);
    var o := Tried(search, qs, None);
    if o.Found? {
      var j :| 0 <= j < |qs| && Hit(search(qs[j])) && o.products == search(qs[j]).products;
      assert Take(o.products, 3) != [];
    }
  }

  /** The loop splits the items into found and failed ones, both in list order. */
  lemma {:induction false} ScanPartition(search: string -> SearchResult, items: seq<string>)
    ensures var st := Scan(search, items);
      ItemNames(st.results) == FoundItems(search, items)
      && st.failed == FailedItems(search, items)
      && |st.results| + |st.failed| == |items|
    decreases |items|
  {
    if items != [] {
      var front := items[..|items| - 1];
      ScanPartition(search, front);
      var st := Scan(search, front);
      var item := items[|items| - 1];
      var ps := ItemProducts(search, item);
      if ps != [] {
        var rs := st.results + [ItemResult(item, ps)];
        assert rs[..|rs| - 1] == st.results;
      }
    }
  }

  /** Each found item keeps between one and three products, and the ASINs are recorded
      for exactly the found items. */
  lemma {:induction false} ScanRecords(search: string -> SearchResult, items: seq<string>)
    ensures var st := Scan(search, items);
      (forall k :: 0 <= k < |st.results| ==>
         st.results[k].products == ItemProducts(search, st.results[k].item)
         && 0 < |st.results[k].products| <= 3)
      && (forall x :: x in st.asins <==> x in FoundItems(search, items))
      && (forall x :: x in st.asins ==> st.asins[x] == AsinsOf(ItemProducts(search, x)))
    decreases |items|
  {
    if items != [] {
      var front := items[..|items| - 1];
      var item := items[|items| - 1];
      ScanRecords(search, front);
      assert |ItemProducts(search, item)| <= 3 by {
        ItemProductsFirstHit(search, item);
      }
      var st := Scan(search, front);
      var ps := ItemProducts(search, item);
      assert Scan(search, items) == Step(st, item, ps);
      if ps != [] {
        var rs := st.results + [ItemResult(item, ps)];
        assert forall k :: 0 <= k < |st.results| ==> rs[k] == st.results[k];
        assert FoundItems(search, items) == FoundItems(search, front) + [item];
      } else {
        assert FoundItems(search, items) == FoundItems(search, front) + [];
      }
    }
  }

  /** Each item is found or failed, and no item is lost or added. */
  lemma {:induction false} FoundFailedSplit(search: string -> SearchResult, items: seq<string>)
    ensures multiset(FoundItems(search, items)) + multiset(FailedItems(search, items))
      == multiset(items)
    decreases |items|
  {
    if items != [] {
      var front := items[..|items| - 1];
      FoundFailedSplit(search, front);
      assert items == front + [items[|items| - 1]];
    }
  }

  /** The loop records only items it was given, at most one result per item. */
  lemma ScanBounded(search: string -> SearchResult, items: seq<string>)
    ensures var st := Scan(search, items);
      |st.results| <= |items| && forall k :: 0 <= k < |st.results| ==> st.results[k].item in items
  {
    ScanPartition(search, items);
    FoundItemsIn(search, items);
    var st := Scan(search, items);
    forall k | 0 <= k < |st.results| ensures st.results[k].item in items {
      ItemNamesIndex(st.results, k);
    }
  }

  lemma {:induction false} FoundItemsIn(search: string -> SearchResult, items: seq<string>)
    ensures forall x :: x in FoundItems(search, items) ==> x in items
    decreases |items|
  {
    if items != [] {
      var front := items[..|items| - 1];
      FoundItemsIn(search, front);
      assert forall x :: x in front ==> x in items;
    }
  }

  /** At most the first ten items are searched, and every found item is one of them. */
  lemma PackingAtMostTen(
    search: string -> SearchResult, fmt: Formats, question: string, items: seq<string>)
    ensures var r := PackingFrom(search, fmt, question, items);
      |r.items| <= 10
      && forall k :: 0 <= k < |r.items| ==> r.items[k].item in items[..Min(10, |items|)]
  {
    ScanBounded(search, Priority(items));
  }

  lemma {:induction false} ItemNamesIndex(results: seq<ItemResult>, k: nat)
    requires k < |results|
    ensures |ItemNames(results)| == |results| && ItemNames(results)[k] == results[k].item
    decreases |results|
  {
    var front := results[..|results| - 1];
    if k < |front| {
      ItemNamesIndex(front, k);
    } else {
      ItemNamesLength(front);
    }
  }

  lemma {:induction false} ItemNamesLength(results: seq<ItemResult>)
    ensures |ItemNames(results)| == |results|
    decreases |results|
  {
    if results != [] {
      ItemNamesLength(results[..|results| - 1]);
    }
  }

  /** When no item is found, the whole answer is the single failure message, and there
      are no ASINs. */
  lemma PackingNothingFound(
    search: string -> SearchResult, fmt: Formats, question: string, items: seq<string>)
    ensures var r := PackingFrom(search, fmt, question, items);
      r.items == [] ==> r.answer == Unable(question) && r.asins == map[]
  {
    var priority := Priority(items);
    ScanPartition(search, priority);
    ScanRecords(search, priority);
    var st := Scan(search, priority);
    if st.results == [] {
      ItemNamesLength(st.results);
      assert forall x :: x !in st.asins;
    }
  }

  /** An answer that starts with a non-space and ends with the summary is not changed
      by `strip()`. */
  lemma SummaryKeepsEnd(answer: string, found: nat, failed: seq<string>)
    requires |answer| > 0 && !IsSpace(answer[0])
    ensures Strip(answer + Summary(found, failed)) == answer + Summary(found, failed)
  {
    var s := Summary(found, failed);
    var t := answer + s;
    assert t[|t| - 1] == s[|s| - 1] == Tip[|Tip| - 1] == '!';
    assert t[0] == answer[0];
    StripKeeps(t);
  }

  /** When some item was found, the answer is the header, one section per searched item,
      and the summary counting the found items and naming the failed ones. */
  lemma PackingFoundAnswer(
    search: string -> SearchResult, fmt: Formats, question: string, items: seq<string>)
    ensures var r := PackingFrom(search, fmt, question, items);
      var priority := Priority(items);
      r.items != [] ==>
        r.answer == PackHeader(question) + Body(SectionOf(fmt), search, priority)
                    + Summary(|r.items|, FailedItems(search, priority))
  {
    var priority := Priority(items);
    ScanPartition(search, priority);
    var st := Scan(search, priority);
    if st.results != [] {
      var answer := PackHeader(question) + Body(SectionOf(fmt), search, priority);
      assert answer[0] == PackHeader(question)[0] == '\U{1F392}';
      SummaryKeepsEnd(answer, |st.results|, st.failed);
    }
  }
}
