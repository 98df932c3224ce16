/**
 * The ordering `search_amazon_products` applies to the products it keeps:
 * `products.sort(key=lambda x: (x["rating"], x["reviews"]), reverse=True)`. Python's
 * sort is stable, and `reverse=True` keeps that: products with equal keys stay in the
 * order the provider gave them.
 */
module Ranking {
  import opened Catalog

  /** `a`'s key (rating, reviews) is strictly greater than `b`'s, compared as tuples. */
  predicate Beats(a: Product, b: Product) {
    a.rating > b.rating || (a.rating == b.rating && a.reviews > b.reviews)
  }

  /** Non-increasing by key: no product beats one placed before it. */
  predicate Ranked(s: seq<Product>) {
    forall i, j :: 0 <= i < j < |s| ==> !Beats(s[j], s[i])
  }

  /** `[p]` when `p`'s key is (rating, reviews), `[]` otherwise. */
  function KeyHead(p: Product, rating: real, reviews: int): seq<Product> {
    if p.rating == rating && p.reviews == reviews then [p] else []
  }

  /** The products whose key is (rating, reviews), in order. */
  function WithKey(s: seq<Product>, rating: real, reviews: int): (r: seq<Product>)
    ensures |r| <= |s|
  {
    if s == [] then [] else KeyHead(s[0], rating, reviews) + WithKey(s[1..], rating, reviews)
  }

  lemma {:induction false} WithKeyCons(x: Product, t: seq<Product>, rating: real, reviews: int)
    ensures WithKey([x] + t, rating, reviews) == KeyHead(x, rating, reviews) + WithKey(t, rating, reviews)
  {
    assert ([x] + t)[1..] == t;
  }

  /** `x` placed after the leading products that beat it, so before every product
      whose key is at most its own. */
  function Insert(x: Product, t: seq<Product>): (r: seq<Product>)
    ensures |r| == |t| + 1
    ensures multiset(r) == multiset(t) + multiset{x}
  {
    if t == [] then [x]
    else if Beats(t[0], x) then assert t == [t[0]] + t[1..]; [t[0]] + Insert(x, t[1..])
    else [x] + t
  }

  /** The sorted list: the first product inserted into the sorted rest. Since it comes
      before every other product, it goes in front of those with the same key. */
  function SortDesc(s: seq<Product>): (r: seq<Product>)
    ensures |r| == |s|
  {
    if s == [] then [] else Insert(s[0], SortDesc(s[1..]))
  }

  lemma {:induction false} InsertRanked(x: Product, t: seq<Product>)
    requires Ranked(t)
    ensures Ranked(Insert(x, t))
    decreases |t|
  {
    if t != [] && Beats(t[0], x) {
      var rest := Insert(x, t[1..]);
      InsertRanked(x, t[1..]);
      assert multiset(rest) == multiset(t[1..]) + multiset{x};
      forall k | 0 <= k < |rest| ensures !Beats(rest[k], t[0]) {
        assert rest[k] in multiset(rest);
        if rest[k] != x {
          assert rest[k] in t[1..];
        }
      }
    }
  }

  /** The sorted list is non-increasing by (rating, reviews). */
  lemma {:induction false} SortDescRanked(s: seq<Product>)
    ensures Ranked(SortDesc(s))
    decreases |s|
  {
    if s != [] {
      SortDescRanked(s[1..]);
      InsertRanked(s[0], SortDesc(s[1..]));
    }
  }

  /** The sorted list holds the same products, each as often. */
  lemma {:induction false} SortDescPermutes(s: seq<Product>)
    ensures multiset(SortDesc(s)) == multiset(s)
    decreases |s|
  {
    if s != [] {
      SortDescPermutes(s[1..]);
      assert s == [s[0]] + s[1..];
    }
  }

  /** Inserting `x` in front of its equals adds it first among them. */
  lemma {:induction false} InsertWithKey(x: Product, t: seq<Product>, rating: real, reviews: int)
    ensures WithKey(Insert(x, t), rating, reviews)
      == KeyHead(x, rating, reviews) + WithKey(t, rating, reviews)
    decreases |t|
  {
    if t == [] {
      WithKeyCons(x, [], rating, reviews);
    } else if Beats(t[0], x) {
      InsertWithKey(x, t[1..], rating, reviews);
      PassBeater(x, t, rating, reviews);
    } else {
      WithKeyCons(x, t, rating, reviews);
    }
  }

  /** One step of `InsertWithKey`: `x` passes a product that beats it, which cannot
      share its key. */
  lemma {:induction false} PassBeater(x: Product, t: seq<Product>, rating: real, reviews: int)
    requires t != [] && Beats(t[0], x)
    requires WithKey(Insert(x, t[1..]), rating, reviews)
      == KeyHead(x, rating, reviews) + WithKey(t[1..], rating, reviews)
    ensures WithKey(Insert(x, t), rating, reviews)
      == KeyHead(x, rating, reviews) + WithKey(t, rating, reviews)
  {
    var h, hx := KeyHead(t[0], rating, reviews), KeyHead(x, rating, reviews);
    var w := WithKey(t[1..], rating, reviews);
    assert WithKey(Insert(x, t), rating, reviews) == h + (hx + w) by {
      WithKeyCons(t[0], Insert(x, t[1..]), rating, reviews);
    }
    assert WithKey(t, rating, reviews) == h + w by {
      assert t == [t[0]] + t[1..];
      WithKeyCons(t[0], t[1..], rating, reviews);
    }
    assert h == [] || hx == [];
    SwapEmpty(h, hx, w);
  }

  lemma SwapEmpty<T>(h: seq<T>, hx: seq<T>, w: seq<T>)
    requires h == [] || hx == []
    ensures h + (hx + w) == hx + (h + w)
  {
    if h == [] {
      assert h + (hx + w) == hx + w;
    } else {
      assert hx + (h + w) == h + w;
    }
  }

  /** Stability: among products with the same key the sorted list keeps the original
      order. */
  lemma {:induction false} SortDescStable(s: seq<Product>, rating: real, reviews: int)
    ensures WithKey(SortDesc(s), rating, reviews) == WithKey(s, rating, reviews)
    decreases |s|
  {
    if s != [] {
      SortDescStable(s[1..], rating, reviews);
      InsertWithKey(s[0], SortDesc(s[1..]), rating, reviews);
    }
  }
}
