/**
 * The provider's raw product records and the product records `search_amazon_products`
 * builds from them: the rating read as a float or 0, the price decoded from whichever of
 * its shapes the record carries.
 */
module Catalog {
  import opened Basics
  import opened Text

  /** The record's "rating": absent or falsy, a value `float()` accepts, or one it
      rejects. */
  datatype RawRating = NoRating | Rated(value: real) | Unparsable

  /** A price as the product record holds it: a number, or any other value kept as its
      text. */
  datatype Price = Amount(amount: real) | Label(text: string)

  /** The record's "price": a dict with or without a "value", a string, a number, or
      anything else (absent included). */
  datatype RawPrice = Dict(value: Option<Price>) | Str(text: string) | Num(number: real) | Other

  /** One entry of the provider's "organic_results"; a missing string field reads as "". */
  datatype RawRecord = RawRecord(
    asin: string, title: string, link: string, rating: RawRating, price: RawPrice,
    reviews: int, thumbnail: string, delivery: string, prime: bool, sponsored: bool)

  /** The product record built for a raw record. */
  datatype Product = Product(
    asin: string, title: string, link: string, price: Price, rating: real,
    reviews: int, thumbnail: string, delivery: string, prime: bool, sponsored: bool)

  /** The rating: the float value when the field is truthy and parses, 0 otherwise. */
  function RatingOf(r: RawRating): (x: real)
    ensures r.Rated? ==> x == r.value
    ensures x != 0.0 ==> r.Rated? && x == r.value
  {
    match r
    case Rated(x) => x
    case _ => 0.0
  }

  /** `rating > 0 and rating < min_rating`: a known rating below the minimum. */
  predicate RatedBelow(rating: real, minRating: real) {
    rating > 0.0 && rating < minRating
  }

  predicate IsNumberChar(c: char) { IsDigit(c) || c == ',' }

  /** The first index at or after `i` holding a digit or a comma. */
  function FirstNumberChar(s: string, i: nat): (r: Option<nat>)
    requires i <= |s|
    ensures r.Some? ==> i <= r.value < |s| && IsNumberChar(s[r.value])
    ensures forall k :: i <= k < (if r.Some? then r.value else |s|) ==> !IsNumberChar(s[k])
    decreases |s| - i
  {
    if i == |s| then None else if IsNumberChar(s[i]) then Some(i) else FirstNumberChar(s, i + 1)
  }

  /** The end of the run of digits and commas that starts at `i`. */
  function NumberRunEnd(s: string, i: nat): (e: nat)
    requires i <= |s|
    ensures i <= e <= |s| && (e == |s| || !IsNumberChar(s[e]))
    ensures forall k :: i <= k < e ==> IsNumberChar(s[k])
    decreases |s| - i
  {
    if i < |s| && IsNumberChar(s[i]) then NumberRunEnd(s, i + 1) else i
  }

  /** The group of `re.search(r'\$?([\d,]+\.?\d*)', s)`. The leftmost match starts at
      the first digit or comma, or at a `$` just before it, so the group starts at that
      digit or comma; `[\d,]+` takes the whole run, then `\.?\d*` a point and the digits
      after it, if any. Nothing after the group can fail, so no backtracking happens. */
  function NumberText(s: string): (g: Option<string>)
    ensures g.Some? ==> |g.value| > 0 && IsNumberChar(g.value[0])
    ensures g.None? <==> forall k :: 0 <= k < |s| ==> !IsNumberChar(s[k])
  {
    match FirstNumberChar(s, 0)
    case None => None
    case Some(j) =>
      var e := NumberRunEnd(s, j);
      if e < |s| && s[e] == '.' then Some(s[j..SkipDigits(s, e + 1)]) else Some(s[j..e])
  }

  /** The index of the first point in `c`, or `|c|`. */
  function PointAt(c: string): (k: nat)
    ensures k <= |c| && (k < |c| ==> c[k] == '.') && forall m :: 0 <= m < k ==> c[m] != '.'
  {
    if c == [] then 0 else if c[0] == '.' then 0 else 1 + PointAt(c[1..])
  }

  /** A text `float()` reads: digits, at most one point, digits. */
  predicate IsDecimal(c: string) {
    forall k :: 0 <= k < |c| ==> IsDigit(c[k]) || k == PointAt(c)
  }

  function Pow10(n: nat): (p: nat)
    ensures p >= 1
  {
    if n == 0 then 1 else 10 * Pow10(n - 1)
  }

  /** The value of the digits after the point: `f` over the power of ten of its length. */
  function FractionValue(f: string): (v: real)
    requires forall k :: 0 <= k < |f| ==> IsDigit(f[k])
    ensures f == [] ==> v == 0.0
  {
    DigitsValue(f) as real / Pow10(|f|) as real
  }

  /** The digits before the point of a decimal text. */
  function Whole(c: string): (w: string)
    requires IsDecimal(c)
    ensures w == c[..PointAt(c)] && forall m :: 0 <= m < |w| ==> IsDigit(w[m])
  {
    c[..PointAt(c)]
  }

  /** The digits after the point of a decimal text, "" when it has none. */
  function Fraction(c: string): (f: string)
    requires IsDecimal(c)
    ensures PointAt(c) == |c| ==> f == []
    ensures forall m :: 0 <= m < |f| ==> IsDigit(f[m])
  {
    var k := PointAt(c);
    if k < |c| then
      var f := c[k + 1..];
      assert forall m :: 0 <= m < |f| ==> f[m] == c[k + 1 + m];
      f
    else
      ""
  }

  /** `float(c)` for a decimal text. Python refuses a text with no digit at all ("" or
      "."), with a message that quotes the text. */
  function ParseFloat(c: string): (r: Result<real>)
    requires IsDecimal(c)
    ensures r.Err? <==> forall k :: 0 <= k < |c| ==> !IsDigit(c[k])
    ensures r.Err? ==> r.error == "could not convert string to float: '" + c + "'"
  {
    if forall k :: 0 <= k < |c| ==> !IsDigit(c[k]) then
      Err("could not convert string to float: '" + c + "'")
    else
      Ok(DigitsValue(Whole(c)) as real + FractionValue(Fraction(c)))
  }

  /** Digits followed by a point: the point is the first. */
  lemma {:induction false} PointAfterDigits(d: string, rest: string)
    requires forall k :: 0 <= k < |d| ==> IsDigit(d[k])
    requires rest == [] || rest[0] == '.'
    ensures PointAt(d + rest) == |d|
    decreases |d|
  {
    if d != [] {
      assert (d + rest)[1..] == d[1..] + rest;
      PointAfterDigits(d[1..], rest);
    }
  }

  /** Digits, then optionally a point and more digits, make a decimal text. */
  lemma DigitsDecimal(d: string, fraction: string)
    requires forall k :: 0 <= k < |d| ==> IsDigit(d[k])
    requires forall k :: 0 <= k < |fraction| ==> IsDigit(fraction[k])
    ensures IsDecimal(d)
    ensures IsDecimal(d + (['.'] + fraction))
  {
    PointAfterDigits(d, []);
    assert d + [] == d;
    var c := d + (['.'] + fraction);
    PointAfterDigits(d, ['.'] + fraction);
    assert forall k :: |d| < k < |c| ==> c[k] == fraction[k - |d| - 1];
  }

  lemma DropCommasPointed(run: string, fraction: string)
    requires forall k :: 0 <= k < |fraction| ==> IsDigit(fraction[k])
    ensures DropChar(run + (['.'] + fraction), ',') == DropChar(run, ',') + (['.'] + fraction)
  {
    DropCharAppend(run, ['.'] + fraction, ',');
    DropCharAppend(['.'], fraction, ',');
    DropCharAbsent(fraction, ',');
    assert DropChar(['.'], ',') == ['.'];
  }

  /** The group is a run of digits and commas, then possibly a point and a run of digits. */
  lemma GroupParts(s: string) returns (run: string, fraction: string)
    requires NumberText(s).Some?
    ensures forall k :: 0 <= k < |run| ==> IsDigit(run[k]) || run[k] == ','
    ensures forall k :: 0 <= k < |fraction| ==> IsDigit(fraction[k])
    ensures NumberText(s).value == run || NumberText(s).value == run + (['.'] + fraction)
  {
    var j := FirstNumberChar(s, 0).value;
    var e := NumberRunEnd(s, j);
    run := s[j..e];
    assert forall k :: 0 <= k < |run| ==> run[k] == s[j + k];
    fraction := [];
    if e < |s| && s[e] == '.' {
      var f := SkipDigits(s, e + 1);
      fraction := s[e + 1..f];
      assert forall k :: 0 <= k < |fraction| ==> fraction[k] == s[e + 1 + k];
      assert s[j..f] == run + (['.'] + fraction);
    }
  }

  /** Dropping the commas of the group leaves a decimal text. */
  lemma GroupDecimal(s: string)
    requires NumberText(s).Some?
    ensures IsDecimal(RemoveAll(NumberText(s).value, ","))
  {
    var g := NumberText(s).value;
    var run, fraction := GroupParts(s);
    assert RemoveAll(g, ",") == DropChar(g, ',') by {
      RemoveAllChar(g, ',');
      assert [','] == ",";
    }
    DropCharDigits(run, ',');
    if g == run {
      DigitsDecimal(DropChar(run, ','), []);
    } else {
      DropCommasPointed(run, fraction);
      DigitsDecimal(DropChar(run, ','), fraction);
    }
  }

  /** The price of a product record: the dict's "value" (or "N/A"), the number in a
      string (or the string itself when it holds no digit or comma), the number, or
      "N/A". Reading a string whose group has no digit raises `float()`'s error. */
  function PriceOf(raw: RawPrice): (r: Result<Price>)
    ensures r.Err? ==> raw.Str? && NumberText(raw.text).Some?
    ensures raw.Str? && r.Ok? && r.value.Label? ==> r.value.text == raw.text
    ensures raw.Num? ==> r == Ok(Amount(raw.number))
  {
    match raw
    case Dict(v) => Ok(if v.Some? then v.value else Label("N/A"))
    case Str(s) =>
      (match NumberText(s)
       case None => Ok(Label(s))
       case Some(g) =>
         GroupDecimal(s);
         match ParseFloat(RemoveAll(g, ","))
         case Ok(x) => Ok(Amount(x))
         case Err(e) => Err(e))
    case Num(x) => Ok(Amount(x))
    case Other => Ok(Label("N/A"))
  }

  /** A price string with no digit and no comma is kept as it is; any other string
      becomes a number or raises. */
  lemma PriceKeptAsText(s: string)
    ensures PriceOf(Str(s)) == Ok(Label(s)) <==> forall k :: 0 <= k < |s| ==> !IsNumberChar(s[k])
  {
  }

  /** Reading a price string raises exactly when its group holds no digit ("," or ",."),
      and then with `float()`'s message about the group without its commas. */
  lemma PriceFails(s: string)
    ensures PriceOf(Str(s)).Err? <==>
      NumberText(s).Some? && forall k :: 0 <= k < |NumberText(s).value| ==> !IsDigit(NumberText(s).value[k])
    ensures PriceOf(Str(s)).Err? ==>
      PriceOf(Str(s)).error == "could not convert string to float: '" + RemoveAll(NumberText(s).value, ",") + "'"
  {
    if NumberText(s).Some? {
      var g := NumberText(s).value;
      RemoveAllChar(g, ',');
      assert [','] == ",";
      DropCharKeepsDigits(g, ',');
    }
  }

  /** The group of "$" followed by the digits of `n` is those digits. */
  lemma DollarsGroup(n: nat, s: string)
    requires s == "$" + NatToString(n)
    ensures NumberText(s) == Some(NatToString(n))
  {
    var g := NatToString(n);
    assert s[0] == '$' && !IsNumberChar(s[0]);
    assert forall k :: 1 <= k < |s| ==> s[k] == g[k - 1];
    assert IsNumberChar(s[1]);
    assert FirstNumberChar(s, 0) == Some(1);
    assert NumberRunEnd(s, 1) == |s|;
    assert s[1..|s|] == g;
  }

  /** A text of digits reads as the number they write. */
  lemma ParseDigits(g: string)
    requires |g| > 0 && forall k :: 0 <= k < |g| ==> IsDigit(g[k])
    ensures IsDecimal(g) && ParseFloat(g) == Ok(DigitsValue(g) as real)
  {
    PointAfterDigits(g, []);
    assert g + [] == g;
    assert PointAt(g) == |g|;
    assert IsDecimal(g);
    assert IsDigit(g[0]);
    assert Whole(g) == g && Fraction(g) == [];
    assert FractionValue([]) == 0.0;
  }

  /** A price string "$" followed by the digits of `n` reads as the amount `n`. */
  lemma PriceOfDollars(n: nat, s: string)
    requires s == "$" + NatToString(n)
    ensures PriceOf(Str(s)) == Ok(Amount(n as real))
  {
    var g := NatToString(n);
    DollarsGroup(n, s);
    RemoveAllChar(g, ',');
    DropCharAbsent(g, ',');
    assert [','] == ",";
    ParseDigits(g);
    DigitsValueOfNatToString(n);
  }

  /** The product record built from a raw record, its rating and its price. */
  function ToProduct(r: RawRecord, rating: real, price: Price): (p: Product)
    ensures p.asin == r.asin && p.title == r.title && p.rating == rating && p.reviews == r.reviews
  {
    Product(r.asin, r.title, r.link, price, rating, r.reviews, r.thumbnail, r.delivery,
            r.prime, r.sponsored)
  }
}
