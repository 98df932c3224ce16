# Product search and packing list tools, modelled in Dafny

This project models the product-search tools of a travel assistant. The model covers
`serp_tools.py`:

- `optimize_search_query` rewrites a shopping question into a search query. It lowercases the
  question, deletes filler phrases, prefixes one keyword expansion and collapses white space.
- `extract_price_range` reads a price ceiling or a price range from the question with six
  regular expressions.
- `search_amazon_products` builds the request and walks the provider's raw records. It skips
  low ratings, decodes prices, keeps records with an ASIN and stops at `max_results`. It then
  sorts by rating and reviews, and turns every exception into a failure record.
- `search_products` tries up to four query variants until one yields products. It then renders
  the answer (the first eight products with stars, links and cart data) and the ASIN list.
- `generate_smart_packing_list` builds a packing list from base items, trip length, the first
  matching climate and every matching activity, with duplicates removed.
- `generate_packing_list` searches products for the first ten packing items, three query
  variants each. It records found and failed items and the ASINs of each found item, and
  renders the answer.

The search provider (the SerpAPI key lookup plus the Amazon search) is a function parameter
`Provider` from request to records or error text. Python's float formatting and
`str.title()` are parameters bundled in `Display.Formats`. Each operation that loops in the
source is a `method` with a `while` or `for` loop. Each such method is proved equal to a
specification function, and the properties are lemmas about those functions.

Modules and files:

- `basics.dfy`: `Option`, `Result`, `Min`.
- `text.dfy` (`Text`): lowercasing, `in` on strings, `replace`, `strip`, `split`/`join`,
  integer text and truncation.
- `regex.dfy` (`Regex`): the fragment of `re.search` the price patterns use, with a
  backtracking matcher and a possessive one shown to agree on these patterns.
- `query_optimizer.dfy` (`QueryTables`, `QueryOptimizer`) and `query_examples.dfy`.
- `price_range.dfy` (`PriceRange`) and `price_examples.dfy`.
- `catalog.dfy` (`Catalog`): raw records, ratings and price decoding.
- `ranking.dfy` (`Ranking`): the descending, stable sort on (rating, reviews).
- `product_search.dfy` (`ProductSearch`).
- `display.dfy` (`Display`).
- `search_orchestrator.dfy` (`SearchOrchestrator`).
- `packing_list.dfy` (`PackingList`).
- `packing_orchestrator.dfy` (`PackingOrchestrator`).

## Model

| member | source | states |
|---|---|---|
| QueryOptimizer.RemoveFillers | infrastructure/mcp-servers/cdk.out/asset.7e7ad0314476aaaffa7fbd0beb4772db76029f4384d5ee2e760a7c1bc0f75b29/serp_tools.py:57-59 | the filler loop leaves the query with every filler phrase removed in table order, each removal followed by a strip |
| QueryOptimizer.FirstExpansion | infrastructure/mcp-servers/cdk.out/asset.7e7ad0314476aaaffa7fbd0beb4772db76029f4384d5ee2e760a7c1bc0f75b29/serp_tools.py:75-78 | the expansion chosen is one whose keyword occurs in the query and whose expansion does not, and no earlier table entry qualifies |
| QueryOptimizer.PrefixExpansion | infrastructure/mcp-servers/cdk.out/asset.7e7ad0314476aaaffa7fbd0beb4772db76029f4384d5ee2e760a7c1bc0f75b29/serp_tools.py:75-78 | the improvements loop prefixes the first applicable expansion and stops, so at most one expansion is added |
| QueryOptimizer.OptimizeSearchQuery | infrastructure/mcp-servers/cdk.out/asset.7e7ad0314476aaaffa7fbd0beb4772db76029f4384d5ee2e760a7c1bc0f75b29/serp_tools.py:43-84 | the method returns `Optimized(query)`: lowercased, defilled, expanded and collapsed, which `OptimizedShape` characterises |
| QueryOptimizer.Defilled | infrastructure/mcp-servers/cdk.out/asset.7e7ad0314476aaaffa7fbd0beb4772db76029f4384d5ee2e760a7c1bc0f75b29/serp_tools.py:54-59 | the lowercased, defilled query has no upper-case letter |
| QueryOptimizer.ImprovementFacts | infrastructure/mcp-servers/cdk.out/asset.7e7ad0314476aaaffa7fbd0beb4772db76029f4384d5ee2e760a7c1bc0f75b29/serp_tools.py:62-73 | every keyword starts with a non-space character and every expansion is non-empty, lowercase and single-spaced |
| QueryOptimizer.CollapseExpanded | infrastructure/mcp-servers/cdk.out/asset.7e7ad0314476aaaffa7fbd0beb4772db76029f4384d5ee2e760a7c1bc0f75b29/serp_tools.py:77-81 | collapsing an expanded query keeps the expansion and a single space in front of the collapsed rest |
| QueryOptimizer.ExpandShape | infrastructure/mcp-servers/cdk.out/asset.7e7ad0314476aaaffa7fbd0beb4772db76029f4384d5ee2e760a7c1bc0f75b29/serp_tools.py:75-81 | the result is lowercase and single-spaced, and is the collapsed query with either no prefix or the first applicable expansion in front |
| QueryOptimizer.OptimizedShape | infrastructure/mcp-servers/cdk.out/asset.7e7ad0314476aaaffa7fbd0beb4772db76029f4384d5ee2e760a7c1bc0f75b29/serp_tools.py:43-84 | an optimised query is lowercase and single-spaced; it is the collapsed defilled query, prefixed only by the first expansion whose keyword occurs and whose text does not |
| QueryOptimizerExample.HikingBootsExample | infrastructure/mcp-servers/cdk.out/asset.7e7ad0314476aaaffa7fbd0beb4772db76029f4384d5ee2e760a7c1bc0f75b29/serp_tools.py:43-84 | "I need hiking boots" becomes "hiking outdoor gear hiking boots" |
| Text.Collapse | infrastructure/mcp-servers/cdk.out/asset.7e7ad0314476aaaffa7fbd0beb4772db76029f4384d5ee2e760a7c1bc0f75b29/serp_tools.py:81 | the result is single-spaced and keeps lowercase |
| Text.CollapseWords | infrastructure/mcp-servers/cdk.out/asset.7e7ad0314476aaaffa7fbd0beb4772db76029f4384d5ee2e760a7c1bc0f75b29/serp_tools.py:81 | collapsing keeps the words of the input, in order |
| Text.CollapseKeeps | infrastructure/mcp-servers/cdk.out/asset.7e7ad0314476aaaffa7fbd0beb4772db76029f4384d5ee2e760a7c1bc0f75b29/serp_tools.py:81 | collapsing text that is already single-spaced changes nothing |
| Text.CollapseAroundSpace | infrastructure/mcp-servers/cdk.out/asset.7e7ad0314476aaaffa7fbd0beb4772db76029f4384d5ee2e760a7c1bc0f75b29/serp_tools.py:77-81 | collapsing two non-blank parts joined by a space collapses each part |
| Text.Strip | infrastructure/mcp-servers/cdk.out/asset.7e7ad0314476aaaffa7fbd0beb4772db76029f4384d5ee2e760a7c1bc0f75b29/serp_tools.py:59 | the result is the input with only white space removed at its two ends, and it neither starts nor ends with white space |
| Text.RemoveAllChar | infrastructure/mcp-servers/cdk.out/asset.7e7ad0314476aaaffa7fbd0beb4772db76029f4384d5ee2e760a7c1bc0f75b29/serp_tools.py:182 | removing every occurrence of a one-character pattern drops exactly that character |
| Text.RemoveAll | infrastructure/mcp-servers/cdk.out/asset.7e7ad0314476aaaffa7fbd0beb4772db76029f4384d5ee2e760a7c1bc0f75b29/serp_tools.py:59 | removing every occurrence of a pattern never lengthens the text, changes it iff the pattern occurs, and keeps lowercase |
| Text.Lower | infrastructure/mcp-servers/cdk.out/asset.7e7ad0314476aaaffa7fbd0beb4772db76029f4384d5ee2e760a7c1bc0f75b29/serp_tools.py:54 | each character is lowered on its own: an ASCII capital becomes its small letter, every other character is kept |
| Regex.PossessiveIsBack | infrastructure/mcp-servers/cdk.out/asset.7e7ad0314476aaaffa7fbd0beb4772db76029f4384d5ee2e760a7c1bc0f75b29/serp_tools.py:98-108 | for patterns where no repeated token can be followed by a character of its own class, the non-backtracking matcher gives the same match as the backtracking regex engine |
| Regex.Back | infrastructure/mcp-servers/cdk.out/asset.7e7ad0314476aaaffa7fbd0beb4772db76029f4384d5ee2e760a7c1bc0f75b29/serp_tools.py:108 | a match ends inside the text and captures one digit string per group of the pattern |
| Regex.Search | infrastructure/mcp-servers/cdk.out/asset.7e7ad0314476aaaffa7fbd0beb4772db76029f4384d5ee2e760a7c1bc0f75b29/serp_tools.py:108 | the search returns the leftmost start at which the pattern matches, and no earlier start matches |
| Regex.NoDigitNoMatch | infrastructure/mcp-servers/cdk.out/asset.7e7ad0314476aaaffa7fbd0beb4772db76029f4384d5ee2e760a7c1bc0f75b29/serp_tools.py:108 | a pattern with a digit group cannot match text without digits |
| PriceRange.PatternFacts | infrastructure/mcp-servers/cdk.out/asset.7e7ad0314476aaaffa7fbd0beb4772db76029f4384d5ee2e760a7c1bc0f75b29/serp_tools.py:98-105 | all six patterns are well formed and deterministic, and exactly the first three name a ceiling word |
| PriceRange.BoundsOf | infrastructure/mcp-servers/cdk.out/asset.7e7ad0314476aaaffa7fbd0beb4772db76029f4384d5ee2e760a7c1bc0f75b29/serp_tools.py:110-113 | a match always gives an upper bound: for a ceiling pattern ("under", "below", "less than") the bounds are (none, the first group's number); for a range pattern ("-", "between … and", "to") they are (the first group's number, the second group's number), in the order written |
| PriceRange.FirstPatternBounds | infrastructure/mcp-servers/cdk.out/asset.7e7ad0314476aaaffa7fbd0beb4772db76029f4384d5ee2e760a7c1bc0f75b29/serp_tools.py:107-115 | the pattern loop returns the bounds of the first pattern that matches, or (None, None) |
| PriceRange.ExtractPriceRange | infrastructure/mcp-servers/cdk.out/asset.7e7ad0314476aaaffa7fbd0beb4772db76029f4384d5ee2e760a7c1bc0f75b29/serp_tools.py:87-115 | the method returns `Extracted(query)`, the bounds of the first pattern matching the lowercased query |
| PriceRange.ScanFirst | infrastructure/mcp-servers/cdk.out/asset.7e7ad0314476aaaffa7fbd0beb4772db76029f4384d5ee2e760a7c1bc0f75b29/serp_tools.py:107-115 | scanning the patterns gives the bounds of the first pattern that matches, and (None, None) when none matches |
| PriceRange.ExtractedKinds | infrastructure/mcp-servers/cdk.out/asset.7e7ad0314476aaaffa7fbd0beb4772db76029f4384d5ee2e760a7c1bc0f75b29/serp_tools.py:107-115 | a ceiling alone comes back iff one of the ceiling patterns matches; a pair comes back iff none of them matches but a range pattern does; a lower bound never comes without an upper one |
| PriceRange.NoDigitNoBounds | infrastructure/mcp-servers/cdk.out/asset.7e7ad0314476aaaffa7fbd0beb4772db76029f4384d5ee2e760a7c1bc0f75b29/serp_tools.py:97-115 | a query without digits yields (None, None) |
| PriceRangeExample.UnderExample | infrastructure/mcp-servers/cdk.out/asset.7e7ad0314476aaaffa7fbd0beb4772db76029f4384d5ee2e760a7c1bc0f75b29/serp_tools.py:99-111 | "under $50" yields (None, 50) |
| PriceRangeExample.DashBounds | infrastructure/mcp-servers/cdk.out/asset.7e7ad0314476aaaffa7fbd0beb4772db76029f4384d5ee2e760a7c1bc0f75b29/serp_tools.py:102-113 | "$a-$b" for any numerals a and b yields (a, b) |
| PriceRangeExample.DashExample | infrastructure/mcp-servers/cdk.out/asset.7e7ad0314476aaaffa7fbd0beb4772db76029f4384d5ee2e760a7c1bc0f75b29/serp_tools.py:102-113 | "$20-$100" yields (20, 100) |
| PriceRangeExample.ReversedExample | infrastructure/mcp-servers/cdk.out/asset.7e7ad0314476aaaffa7fbd0beb4772db76029f4384d5ee2e760a7c1bc0f75b29/serp_tools.py:102-113 | "$100-$20" yields (100, 20): the bounds are not reordered |
| PriceRangeExample.NoPriceExample | infrastructure/mcp-servers/cdk.out/asset.7e7ad0314476aaaffa7fbd0beb4772db76029f4384d5ee2e760a7c1bc0f75b29/serp_tools.py:97-115 | "nice shoes" yields (None, None) |
| Catalog.NumberText | infrastructure/mcp-servers/cdk.out/asset.7e7ad0314476aaaffa7fbd0beb4772db76029f4384d5ee2e760a7c1bc0f75b29/serp_tools.py:180 | the number group is absent exactly when the text has no digit or comma |
| Catalog.RatingOf | infrastructure/mcp-servers/cdk.out/asset.7e7ad0314476aaaffa7fbd0beb4772db76029f4384d5ee2e760a7c1bc0f75b29/serp_tools.py:161-167 | a rating field that parsed gives its value, and a non-zero rating comes only from such a field; every other field gives 0 |
| Catalog.PriceOf | infrastructure/mcp-servers/cdk.out/asset.7e7ad0314476aaaffa7fbd0beb4772db76029f4384d5ee2e760a7c1bc0f75b29/serp_tools.py:174-186 | reading a price raises only for a string with a number group; a string kept as text is kept verbatim; a number is kept as the amount |
| Catalog.ParseFloat | infrastructure/mcp-servers/cdk.out/asset.7e7ad0314476aaaffa7fbd0beb4772db76029f4384d5ee2e760a7c1bc0f75b29/serp_tools.py:182 | `float()` of the comma-free group fails exactly when the group has no digit, with Python's message |
| Catalog.GroupDecimal | infrastructure/mcp-servers/cdk.out/asset.7e7ad0314476aaaffa7fbd0beb4772db76029f4384d5ee2e760a7c1bc0f75b29/serp_tools.py:180-182 | the matched group without its commas is digits with at most one decimal point |
| Catalog.PriceKeptAsText | infrastructure/mcp-servers/cdk.out/asset.7e7ad0314476aaaffa7fbd0beb4772db76029f4384d5ee2e760a7c1bc0f75b29/serp_tools.py:178-184 | a price string is kept as text iff it holds no digit and no comma |
| Catalog.PriceFails | infrastructure/mcp-servers/cdk.out/asset.7e7ad0314476aaaffa7fbd0beb4772db76029f4384d5ee2e760a7c1bc0f75b29/serp_tools.py:178-184 | reading a price string raises iff its number group has no digit, and the error is `float()`'s message for that group |
| Catalog.PriceOfDollars | infrastructure/mcp-servers/cdk.out/asset.7e7ad0314476aaaffa7fbd0beb4772db76029f4384d5ee2e760a7c1bc0f75b29/serp_tools.py:178-184 | "$n" reads as the amount n |
| ProductSearch.SearchedFromRecords | infrastructure/mcp-servers/cdk.out/asset.7e7ad0314476aaaffa7fbd0beb4772db76029f4384d5ee2e760a7c1bc0f75b29/serp_tools.py:160-212 | every product of a successful search is the product record of a provider record with an ASIN, not rated below the minimum, whose price could be read |
| ProductSearch.GatherFromRecords | infrastructure/mcp-servers/cdk.out/asset.7e7ad0314476aaaffa7fbd0beb4772db76029f4384d5ee2e760a7c1bc0f75b29/serp_tools.py:160-207 | every product the record loop appends is built from one of the records it kept |
| Ranking.SortDescRanked | infrastructure/mcp-servers/cdk.out/asset.7e7ad0314476aaaffa7fbd0beb4772db76029f4384d5ee2e760a7c1bc0f75b29/serp_tools.py:210 | the sort orders products by (rating, reviews), highest first |
| Ranking.SortDescPermutes | infrastructure/mcp-servers/cdk.out/asset.7e7ad0314476aaaffa7fbd0beb4772db76029f4384d5ee2e760a7c1bc0f75b29/serp_tools.py:210 | the sort is a permutation of its input |
| Ranking.SortDescStable | infrastructure/mcp-servers/cdk.out/asset.7e7ad0314476aaaffa7fbd0beb4772db76029f4384d5ee2e760a7c1bc0f75b29/serp_tools.py:210 | products with equal keys keep their relative order, as Python's sort does |
| ProductSearch.SearchAmazonProducts | infrastructure/mcp-servers/cdk.out/asset.7e7ad0314476aaaffa7fbd0beb4772db76029f4384d5ee2e760a7c1bc0f75b29/serp_tools.py:118-216 | the method returns `Searched(provider, query, maxResults, minRating)`, which the `Searched…` lemmas characterise |
| ProductSearch.RequestFor | infrastructure/mcp-servers/cdk.out/asset.7e7ad0314476aaaffa7fbd0beb4772db76029f4384d5ee2e760a7c1bc0f75b29/serp_tools.py:133-151 | the request carries the optimised query, and each price bound exactly when it was found and is non-zero |
| ProductSearch.GatherAdmissible | infrastructure/mcp-servers/cdk.out/asset.7e7ad0314476aaaffa7fbd0beb4772db76029f4384d5ee2e760a7c1bc0f75b29/serp_tools.py:160-207 | the record loop only appends products with an ASIN and a rating that is unknown or at least the minimum, and never more than `max_results` |
| ProductSearch.GatherTakes | infrastructure/mcp-servers/cdk.out/asset.7e7ad0314476aaaffa7fbd0beb4772db76029f4384d5ee2e760a7c1bc0f75b29/serp_tools.py:160-207 | without a price error, the loop keeps exactly the first `max_results` admissible products in record order |
| ProductSearch.GatherFails | infrastructure/mcp-servers/cdk.out/asset.7e7ad0314476aaaffa7fbd0beb4772db76029f4384d5ee2e760a7c1bc0f75b29/serp_tools.py:174-186 | the loop fails only with the error of some record's price, and succeeds when every price can be read |
| ProductSearch.SearchedShape | infrastructure/mcp-servers/cdk.out/asset.7e7ad0314476aaaffa7fbd0beb4772db76029f4384d5ee2e760a7c1bc0f75b29/serp_tools.py:118-216 | a failure has no products, zero total and an error; a success has no error, total equal to the number of products, at most `max(max_results, 1)` products, ranked, each admissible |
| ProductSearch.SearchedRanksKept | infrastructure/mcp-servers/cdk.out/asset.7e7ad0314476aaaffa7fbd0beb4772db76029f4384d5ee2e760a7c1bc0f75b29/serp_tools.py:160-212 | a success returns the first `max_results` kept products, sorted, as a permutation, with equal-key order kept |
| ProductSearch.SearchedFailures | infrastructure/mcp-servers/cdk.out/asset.7e7ad0314476aaaffa7fbd0beb4772db76029f4384d5ee2e760a7c1bc0f75b29/serp_tools.py:130-216 | a provider error becomes the failure record; any other failure carries a record's price error; with readable prices and a working provider the search succeeds |
| Display.Stars | infrastructure/mcp-servers/cdk.out/asset.7e7ad0314476aaaffa7fbd0beb4772db76029f4384d5ee2e760a7c1bc0f75b29/serp_tools.py:292-294 | the stars are one star character per whole rating point |
| Display.PriceText | infrastructure/mcp-servers/cdk.out/asset.7e7ad0314476aaaffa7fbd0beb4772db76029f4384d5ee2e760a7c1bc0f75b29/serp_tools.py:282-286 | a number is shown as "$" followed by its two-decimal rendering; any other price as its own text |
| Text.Truncate | infrastructure/mcp-servers/cdk.out/asset.7e7ad0314476aaaffa7fbd0beb4772db76029f4384d5ee2e760a7c1bc0f75b29/serp_tools.py:289 | a title longer than the limit is cut to the limit followed by "..."; a shorter one is unchanged |
| SearchOrchestrator.Attempts | infrastructure/mcp-servers/cdk.out/asset.7e7ad0314476aaaffa7fbd0beb4772db76029f4384d5ee2e760a7c1bc0f75b29/serp_tools.py:238-249 | the variants are the question, the optimised query, "best rated …" when the question asks for the best, and "budget …" when it asks for cheap, in that order |
| SearchOrchestrator.SearchAttempts | infrastructure/mcp-servers/cdk.out/asset.7e7ad0314476aaaffa7fbd0beb4772db76029f4384d5ee2e760a7c1bc0f75b29/serp_tools.py:238-249 | the method builds exactly those variants |
| SearchOrchestrator.TriedFirstHit | infrastructure/mcp-servers/cdk.out/asset.7e7ad0314476aaaffa7fbd0beb4772db76029f4384d5ee2e760a7c1bc0f75b29/serp_tools.py:251-266 | the attempts stop at the first that succeeds with products and return its products; when none does, the error of the last attempt is kept |
| SearchOrchestrator.FirstHit | infrastructure/mcp-servers/cdk.out/asset.7e7ad0314476aaaffa7fbd0beb4772db76029f4384d5ee2e760a7c1bc0f75b29/serp_tools.py:251-266 | the attempt loop computes that outcome |
| SearchOrchestrator.CollectAsins | infrastructure/mcp-servers/cdk.out/asset.7e7ad0314476aaaffa7fbd0beb4772db76029f4384d5ee2e760a7c1bc0f75b29/serp_tools.py:276 | the ASIN list holds the non-empty ASINs of the products, in order |
| SearchOrchestrator.AsinsOfAll | infrastructure/mcp-servers/cdk.out/asset.7e7ad0314476aaaffa7fbd0beb4772db76029f4384d5ee2e760a7c1bc0f75b29/serp_tools.py:276 | when every product has an ASIN, the list is the products' ASINs one for one |
| SearchOrchestrator.SearcherKeepsAsins | infrastructure/mcp-servers/cdk.out/asset.7e7ad0314476aaaffa7fbd0beb4772db76029f4384d5ee2e760a7c1bc0f75b29/serp_tools.py:202-203 | every product a successful search returns has an ASIN |
| SearchOrchestrator.RatingPart | infrastructure/mcp-servers/cdk.out/asset.7e7ad0314476aaaffa7fbd0beb4772db76029f4384d5ee2e760a7c1bc0f75b29/serp_tools.py:292-296 | the rating part is empty for a non-positive rating; otherwise it starts with the stars and the rating out of 5, then shows the review count when the count is non-zero and nothing more when it is zero |
| SearchOrchestrator.EntryShows | infrastructure/mcp-servers/cdk.out/asset.7e7ad0314476aaaffa7fbd0beb4772db76029f4384d5ee2e760a7c1bc0f75b29/serp_tools.py:289-305 | a product entry starts with its number and truncated title and shows the link, the cart data and, for a positive rating, the stars |
| SearchOrchestrator.AppendEntries | infrastructure/mcp-servers/cdk.out/asset.7e7ad0314476aaaffa7fbd0beb4772db76029f4384d5ee2e760a7c1bc0f75b29/serp_tools.py:281-305 | the entry loop appends one entry per shown product, numbered from 1 |
| SearchOrchestrator.RenderAnswer | infrastructure/mcp-servers/cdk.out/asset.7e7ad0314476aaaffa7fbd0beb4772db76029f4384d5ee2e760a7c1bc0f75b29/serp_tools.py:279-312 | the method returns `SuccessAnswer(fmt, question, products)`, which `SuccessAnswerEntries` splits into header, entries and footer |
| SearchOrchestrator.Entries | infrastructure/mcp-servers/cdk.out/asset.7e7ad0314476aaaffa7fbd0beb4772db76029f4384d5ee2e760a7c1bc0f75b29/serp_tools.py:281-305 | entry i is the rendering of product i with number i + 1 |
| SearchOrchestrator.ListingHolds | infrastructure/mcp-servers/cdk.out/asset.7e7ad0314476aaaffa7fbd0beb4772db76029f4384d5ee2e760a7c1bc0f75b29/serp_tools.py:281-305 | the listing contains the entry of every shown product |
| SearchOrchestrator.ListingIsEntries | infrastructure/mcp-servers/cdk.out/asset.7e7ad0314476aaaffa7fbd0beb4772db76029f4384d5ee2e760a7c1bc0f75b29/serp_tools.py:281-305 | the listing is the entries concatenated in order |
| SearchOrchestrator.SuccessAnswerEntries | infrastructure/mcp-servers/cdk.out/asset.7e7ad0314476aaaffa7fbd0beb4772db76029f4384d5ee2e760a7c1bc0f75b29/serp_tools.py:279-312 | the answer is the header with the product count, the entries of the first eight products, and the footer |
| SearchOrchestrator.SuccessAnswerEntry | infrastructure/mcp-servers/cdk.out/asset.7e7ad0314476aaaffa7fbd0beb4772db76029f4384d5ee2e760a7c1bc0f75b29/serp_tools.py:281-305 | the i-th entry of the answer renders the i-th product |
| SearchOrchestrator.AnswerShows | infrastructure/mcp-servers/cdk.out/asset.7e7ad0314476aaaffa7fbd0beb4772db76029f4384d5ee2e760a7c1bc0f75b29/serp_tools.py:281-305 | the answer shows the link, the cart data and the stars of each of the first eight products |
| SearchOrchestrator.SuccessAnswerStripped | infrastructure/mcp-servers/cdk.out/asset.7e7ad0314476aaaffa7fbd0beb4772db76029f4384d5ee2e760a7c1bc0f75b29/serp_tools.py:314 | stripping the success answer leaves it unchanged |
| SearchOrchestrator.SearchProducts | infrastructure/mcp-servers/cdk.out/asset.7e7ad0314476aaaffa7fbd0beb4772db76029f4384d5ee2e760a7c1bc0f75b29/serp_tools.py:219-314 | the method returns `ProductListFrom` of the searches and `Attempts(question)`, which `SearchProductsHit` and `SearchProductsMiss` characterise |
| SearchOrchestrator.SearchProductsMiss | infrastructure/mcp-servers/cdk.out/asset.7e7ad0314476aaaffa7fbd0beb4772db76029f4384d5ee2e760a7c1bc0f75b29/serp_tools.py:255-273 | no products come back iff no variant hits; the answer then names the last error and the ASIN list is empty |
| SearchOrchestrator.FailureAnswer | infrastructure/mcp-servers/cdk.out/asset.7e7ad0314476aaaffa7fbd0beb4772db76029f4384d5ee2e760a7c1bc0f75b29/serp_tools.py:268-273 | the failure answer starts by naming the question and ends with the last error, or "None" |
| SearchOrchestrator.SearchProductsHit | infrastructure/mcp-servers/cdk.out/asset.7e7ad0314476aaaffa7fbd0beb4772db76029f4384d5ee2e760a7c1bc0f75b29/serp_tools.py:255-314 | products come from the first variant that hits, with one ASIN per product, and the answer lists them |
| PackingList.FirstMatchOf | infrastructure/mcp-servers/cdk.out/asset.7e7ad0314476aaaffa7fbd0beb4772db76029f4384d5ee2e760a7c1bc0f75b29/serp_tools.py:359-362 | the climate loop returns the items of the first climate whose name occurs, or nothing |
| PackingList.FirstMatchFirst | infrastructure/mcp-servers/cdk.out/asset.7e7ad0314476aaaffa7fbd0beb4772db76029f4384d5ee2e760a7c1bc0f75b29/serp_tools.py:359-362 | the climate items are empty or those of the first matching row; no match gives nothing |
| PackingList.AppendMatches | infrastructure/mcp-servers/cdk.out/asset.7e7ad0314476aaaffa7fbd0beb4772db76029f4384d5ee2e760a7c1bc0f75b29/serp_tools.py:372-374 | the activity loop appends the items of every matching activity in table order |
| PackingList.AllMatchesItems | infrastructure/mcp-servers/cdk.out/asset.7e7ad0314476aaaffa7fbd0beb4772db76029f4384d5ee2e760a7c1bc0f75b29/serp_tools.py:372-374 | an item is among the activity items iff some matching activity lists it |
| PackingList.DedupeOf | infrastructure/mcp-servers/cdk.out/asset.7e7ad0314476aaaffa7fbd0beb4772db76029f4384d5ee2e760a7c1bc0f75b29/serp_tools.py:378 | the dedupe loop keeps each item at its first occurrence |
| PackingList.DedupeDistinct | infrastructure/mcp-servers/cdk.out/asset.7e7ad0314476aaaffa7fbd0beb4772db76029f4384d5ee2e760a7c1bc0f75b29/serp_tools.py:378 | the deduplicated list has no repeats and holds exactly the items not seen before |
| PackingList.DedupeAppend | infrastructure/mcp-servers/cdk.out/asset.7e7ad0314476aaaffa7fbd0beb4772db76029f4384d5ee2e760a7c1bc0f75b29/serp_tools.py:378 | deduplicating a concatenation deduplicates the second part against the first |
| PackingList.DedupeKeeps | infrastructure/mcp-servers/cdk.out/asset.7e7ad0314476aaaffa7fbd0beb4772db76029f4384d5ee2e760a7c1bc0f75b29/serp_tools.py:378 | a list without repeats and without seen items is unchanged |
| PackingList.GenerateSmartPackingList | infrastructure/mcp-servers/cdk.out/asset.7e7ad0314476aaaffa7fbd0beb4772db76029f4384d5ee2e760a7c1bc0f75b29/serp_tools.py:325-378 | the method returns `SmartPackingList(question)`, which the `Smart…` lemmas characterise |
| PackingList.SmartStartsWithBase | infrastructure/mcp-servers/cdk.out/asset.7e7ad0314476aaaffa7fbd0beb4772db76029f4384d5ee2e760a7c1bc0f75b29/serp_tools.py:339-378 | the list starts with the four base items |
| PackingList.SmartDistinct | infrastructure/mcp-servers/cdk.out/asset.7e7ad0314476aaaffa7fbd0beb4772db76029f4384d5ee2e760a7c1bc0f75b29/serp_tools.py:377-378 | the list has no repeats and holds exactly the base, trip-length, first-climate and matching-activity items |
| PackingList.OneDuration | infrastructure/mcp-servers/cdk.out/asset.7e7ad0314476aaaffa7fbd0beb4772db76029f4384d5ee2e760a7c1bc0f75b29/serp_tools.py:342-345 | the long-trip items come iff the question names a long trip; the short-trip items come iff it names a short trip and not a long one; otherwise none |
| PackingList.DurationItems | infrastructure/mcp-servers/cdk.out/asset.7e7ad0314476aaaffa7fbd0beb4772db76029f4384d5ee2e760a7c1bc0f75b29/serp_tools.py:342-345 | at most one of the trip-length lists is added |
| PackingList.WeekendIsLong | infrastructure/mcp-servers/cdk.out/asset.7e7ad0314476aaaffa7fbd0beb4772db76029f4384d5ee2e760a7c1bc0f75b29/serp_tools.py:342-345 | "weekend" contains "week", so a weekend gets the long-trip items |
| PackingList.SmartHasActivities | infrastructure/mcp-servers/cdk.out/asset.7e7ad0314476aaaffa7fbd0beb4772db76029f4384d5ee2e760a7c1bc0f75b29/serp_tools.py:365-378 | every item of every matching activity is in the list |
| PackingList.SmartFirstClimate | infrastructure/mcp-servers/cdk.out/asset.7e7ad0314476aaaffa7fbd0beb4772db76029f4384d5ee2e760a7c1bc0f75b29/serp_tools.py:348-378 | every item of the first matching climate is in the list |
| PackingOrchestrator.SearchItem | infrastructure/mcp-servers/cdk.out/asset.7e7ad0314476aaaffa7fbd0beb4772db76029f4384d5ee2e760a7c1bc0f75b29/serp_tools.py:417-428 | an item's products are the first three of the first variant ("travel …", "best …", the item) that hits |
| PackingOrchestrator.ItemProductsFirstHit | infrastructure/mcp-servers/cdk.out/asset.7e7ad0314476aaaffa7fbd0beb4772db76029f4384d5ee2e760a7c1bc0f75b29/serp_tools.py:417-428 | no products iff no variant hits; otherwise at most three, taken from the first variant that hits |
| PackingOrchestrator.RenderSection | infrastructure/mcp-servers/cdk.out/asset.7e7ad0314476aaaffa7fbd0beb4772db76029f4384d5ee2e760a7c1bc0f75b29/serp_tools.py:430-464 | the method renders an item's section: its products, or the advice to search manually |
| PackingOrchestrator.SearchItems | infrastructure/mcp-servers/cdk.out/asset.7e7ad0314476aaaffa7fbd0beb4772db76029f4384d5ee2e760a7c1bc0f75b29/serp_tools.py:411-464 | the item loop returns `Scan` of the items (found records, ASIN map, failed items) and the answer extended by `Body`, one section per item |
| PackingOrchestrator.Conclude | infrastructure/mcp-servers/cdk.out/asset.7e7ad0314476aaaffa7fbd0beb4772db76029f4384d5ee2e760a7c1bc0f75b29/serp_tools.py:466-475 | the found records and ASIN map pass through; with nothing found the answer is exactly the apology; otherwise the summary follows the sections, and an answer starting with a non-space is not changed by the strip |
| PackingOrchestrator.GeneratePackingList | infrastructure/mcp-servers/cdk.out/asset.7e7ad0314476aaaffa7fbd0beb4772db76029f4384d5ee2e760a7c1bc0f75b29/serp_tools.py:381-475 | the method returns `PackingFrom` of the searches and `SmartPackingList(question)` |
| PackingOrchestrator.ScanPartition | infrastructure/mcp-servers/cdk.out/asset.7e7ad0314476aaaffa7fbd0beb4772db76029f4384d5ee2e760a7c1bc0f75b29/serp_tools.py:413-462 | found items and failed items split the searched items, in order |
| PackingOrchestrator.FoundFailedSplit | infrastructure/mcp-servers/cdk.out/asset.7e7ad0314476aaaffa7fbd0beb4772db76029f4384d5ee2e760a7c1bc0f75b29/serp_tools.py:413-462 | as a multiset, the found and failed items are the searched items |
| PackingOrchestrator.ScanRecords | infrastructure/mcp-servers/cdk.out/asset.7e7ad0314476aaaffa7fbd0beb4772db76029f4384d5ee2e760a7c1bc0f75b29/serp_tools.py:427-460 | each found record has one to three products of its item; the ASIN map has exactly the found items as keys, each mapped to its products' ASINs |
| PackingOrchestrator.ScanBounded | infrastructure/mcp-servers/cdk.out/asset.7e7ad0314476aaaffa7fbd0beb4772db76029f4384d5ee2e760a7c1bc0f75b29/serp_tools.py:413-460 | there are no more found records than items, and each names a searched item |
| PackingOrchestrator.PackingAtMostTen | infrastructure/mcp-servers/cdk.out/asset.7e7ad0314476aaaffa7fbd0beb4772db76029f4384d5ee2e760a7c1bc0f75b29/serp_tools.py:404-460 | at most ten items are found, all among the first ten of the packing list |
| PackingOrchestrator.PackingNothingFound | infrastructure/mcp-servers/cdk.out/asset.7e7ad0314476aaaffa7fbd0beb4772db76029f4384d5ee2e760a7c1bc0f75b29/serp_tools.py:466-475 | when nothing is found, the answer is exactly the apology naming the question, and the ASIN map is empty |
| PackingOrchestrator.PackingFoundAnswer | infrastructure/mcp-servers/cdk.out/asset.7e7ad0314476aaaffa7fbd0beb4772db76029f4384d5ee2e760a7c1bc0f75b29/serp_tools.py:411-475 | when some item is found, the answer is the header, one section per searched item, and the summary counting the found items and naming the failed ones |
| PackingOrchestrator.Summary | infrastructure/mcp-servers/cdk.out/asset.7e7ad0314476aaaffa7fbd0beb4772db76029f4384d5ee2e760a7c1bc0f75b29/serp_tools.py:467-471 | the summary starts with the count of found items, contains the manual-search line naming the failed items iff there are any, and ends with the tip |
| PackingOrchestrator.Unable | infrastructure/mcp-servers/cdk.out/asset.7e7ad0314476aaaffa7fbd0beb4772db76029f4384d5ee2e760a7c1bc0f75b29/serp_tools.py:473 | the apology names the question and has no white space at its ends |

## Left out

- The SerpAPI key lookup, `GoogleSearch` and the network are the `Provider` parameter. An exception either raises is its `Err` text. How Python renders an exception with `str(e)` is not modelled: the error text is opaque.
- Logging (`logger.info`, `logger.error`) and the `user_id` argument, which only feeds the log, are left out.
- Python float formatting (`f"{x:.2f}"`, `str(x)`) and `str.title()` are left out. They are the parameters of `Display.Formats`.
- `float()` on a price yields an exact rational. Binary rounding, exponents, `inf` and `nan` are not modelled.
- A rating string is reduced to three cases: absent or falsy, a finite value `float()` accepts, or one it rejects (`Catalog.RawRating`). The text of a rating string is not modelled.
- A dict price's "value" is modelled as a number or a text. Other JSON values there (`None`, lists) are not modelled.
- "reviews" is modelled as an integer. Other JSON values there are not modelled.
- `str.lower`, `str.strip`, `str.split`, `\s` and `\d` are modelled on ASCII only. Unicode case mapping, Unicode white space and Unicode digits are not modelled.
- The regular expressions are modelled only for the tokens the six price patterns use: literals, `\s*`, `\$?` and `(\d+)`. `Regex` is not a general regex engine. The price-string pattern `\$?([\d,]+\.?\d*)` is modelled directly in `Catalog.NumberText`.
- `products.sort` works in place on the Python list. The model sorts a value (`Ranking.SortDesc`, an insertion sort) and assigns the result.
- The outer `except Exception` handlers of `search_products` and `generate_packing_list` are left out. The model's types rule out the provider data that would reach them, as the next line says.
- A product title is always a string and a rating always a finite real. None of the following is modelled:
  - A JSON-null title raises at `product['title'][:80]` and `len(product['title'])`, and reaches the outer handler.
  - A `+inf` rating, or a finite rating of at least 2**63, raises OverflowError in `"⭐" * int(product["rating"])` (serp_tools.py:293 and :451), and reaches the outer handler.
  - A NaN or `-inf` rating passes the minimum-rating filter, because `rating > 0` is false for it. It sorts unpredictably and is shown with no rating part.
- Display.Stars: repeats the star character ⌊rating⌋ times with no upper bound, so it does not model the OverflowError Python raises for a count of 2**63 or more.
- The subagent modules and the other MCP tool files of the repository are not part of this model.
- `extract_price_range` does not reorder the bounds. `PriceRangeExample.ReversedExample` shows "$100-$20" yields (100, 20), as the code does.
- `str.replace` in the filler loop removes every occurrence, also inside longer words. The model does the same.
- The climate test also tries `climate.replace('_', ' ')`. None of the climate names contains '_', so the model tests the name alone.
