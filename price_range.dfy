/**
 * `extract_price_range`: the first of six price patterns, in list order, that occurs
 * anywhere in the lower-cased query decides the bounds. The three "under/below/less than"
 * patterns give only a ceiling; the three range patterns give a floor and a ceiling in
 * the order written.
 */
module PriceRange {
  import opened Basics
  import opened Text
  import opened Regex

  /** `under\s*\$?(\d+)` */
  const Under: seq<Token> := [Lit("under"), Spaces, OptDollar, Number]
  /** `below\s*\$?(\d+)` */
  const Below: seq<Token> := [Lit("below"), Spaces, OptDollar, Number]
  /** `less than\s*\$?(\d+)` */
  const LessThan: seq<Token> := [Lit("less than"), Spaces, OptDollar, Number]
  /** `\$?(\d+)\s*-\s*\$?(\d+)` */
  const Dash: seq<Token> := [OptDollar, Number, Spaces, Lit("-"), Spaces, OptDollar, Number]
  /** `between\s*\$?(\d+)\s*and\s*\$?(\d+)` */
  const Between: seq<Token> :=
    [Lit("between"), Spaces, OptDollar, Number, Spaces, Lit("and"), Spaces, OptDollar, Number]
  /** `\$?(\d+)\s*to\s*\$?(\d+)` */
  const To: seq<Token> := [OptDollar, Number, Spaces, Lit("to"), Spaces, OptDollar, Number]

  /** The patterns in the order they are tried. */
  const Patterns: seq<seq<Token>> := [Under, Below, LessThan, Dash, Between, To]

  /** `'under' in pattern or 'below' in pattern or 'less than' in pattern`, asked of
      one literal of the pattern. */
  predicate CeilingWord(t: string) {
    Contains(t, "under") || Contains(t, "below") || Contains(t, "less than")
  }

  /** The ceiling test of `extract_price_range`, asked of the pattern's literal words. */
  predicate NamesCeiling(toks: seq<Token>) {
    toks != [] && ((toks[0].Lit? && CeilingWord(toks[0].text)) || NamesCeiling(toks[1..]))
  }

  /** A pattern whose match yields bounds: one group for a ceiling, two otherwise. */
  predicate WellFormed(toks: seq<Token>) {
    Groups(toks) == if NamesCeiling(toks) then 1 else 2
  }

  /** The bounds found: `(min_price, max_price)`. */
  datatype Bounds = Bounds(low: Option<nat>, high: Option<nat>)

  /** A literal without 'u' or 'l' names none of the ceiling words. */
  lemma NoCeilingWord(t: string)
    requires 'u' !in t && 'l' !in t
    ensures !CeilingWord(t)
  {
    MissingChar(t, "under", 0);
    MissingChar(t, "below", 2);
    MissingChar(t, "less than", 0);
  }

  /* Building a pattern from its last token forwards: each lemma below puts one token in
     front of a determinate pattern and says what the longer pattern can start with. */

  lemma Ending(toks: seq<Token>)
    requires toks == [Number]
    ensures Determinate(toks) && Groups(toks) == 1 && !NamesCeiling(toks)
    ensures forall c :: CanStart(toks, Some(c)) ==> IsDigit(c)
  {
    assert toks[1..] == [];
  }

  lemma Dollar(toks: seq<Token>, rest: seq<Token>)
    requires toks == [OptDollar] + rest && Determinate(rest)
    requires forall c :: CanStart(rest, Some(c)) ==> IsDigit(c)
    ensures Determinate(toks) && Groups(toks) == Groups(rest)
    ensures NamesCeiling(toks) <==> NamesCeiling(rest)
    ensures forall c :: CanStart(toks, Some(c)) ==> c == '$' || IsDigit(c)
  {
    assert toks[1..] == rest;
  }

  lemma Spaced(toks: seq<Token>, rest: seq<Token>)
    requires toks == [Spaces] + rest && Determinate(rest)
    requires forall c :: CanStart(rest, Some(c)) ==> !IsSpace(c)
    ensures Determinate(toks) && Groups(toks) == Groups(rest)
    ensures NamesCeiling(toks) <==> NamesCeiling(rest)
    ensures forall c :: CanStart(toks, Some(c)) ==> IsSpace(c) || CanStart(rest, Some(c))
  {
    assert toks[1..] == rest;
  }

  lemma Worded(toks: seq<Token>, w: string, rest: seq<Token>)
    requires toks == [Lit(w)] + rest && Determinate(rest) && |w| > 0
    ensures Determinate(toks) && Groups(toks) == Groups(rest)
    ensures NamesCeiling(toks) <==> CeilingWord(w) || NamesCeiling(rest)
    ensures forall c :: CanStart(toks, Some(c)) ==> c == w[0]
  {
    assert toks[1..] == rest;
  }

  lemma Grouped(toks: seq<Token>, rest: seq<Token>)
    requires toks == [Number] + rest && Determinate(rest)
    requires forall c :: CanStart(rest, Some(c)) ==> !IsDigit(c)
    ensures Determinate(toks) && Groups(toks) == 1 + Groups(rest)
    ensures NamesCeiling(toks) <==> NamesCeiling(rest)
    ensures forall c :: CanStart(toks, Some(c)) ==> IsDigit(c)
  {
    assert toks[1..] == rest;
  }

  /** `\s*\$?(\d+)`: how every pattern ends. */
  lemma Tail(toks: seq<Token>)
    requires toks == [Spaces, OptDollar, Number]
    ensures Determinate(toks) && Groups(toks) == 1 && !NamesCeiling(toks)
    ensures forall c :: CanStart(toks, Some(c)) ==> IsSpace(c) || c == '$' || IsDigit(c)
  {
    var t2, t3: seq<Token> := [OptDollar, Number], [Number];
    Ending(t3);
    Dollar(t2, t3);
    Spaced(toks, t2);
  }

  /** A ceiling word followed by the common tail. */
  lemma CeilingPattern(toks: seq<Token>, w: string)
    requires toks == [Lit(w), Spaces, OptDollar, Number] && CeilingWord(w) && |w| > 0
    ensures WellFormed(toks) && NamesCeiling(toks) && Determinate(toks)
  {
    Tail(toks[1..]);
    Worded(toks, w, toks[1..]);
  }

  lemma UnderPattern() ensures WellFormed(Under) && NamesCeiling(Under) && Determinate(Under) {
    assert StartsWith("under", "under");
    CeilingPattern(Under, "under");
  }

  lemma BelowPattern() ensures WellFormed(Below) && NamesCeiling(Below) && Determinate(Below) {
    assert StartsWith("below", "below");
    CeilingPattern(Below, "below");
  }

  lemma LessThanPattern()
    ensures WellFormed(LessThan) && NamesCeiling(LessThan) && Determinate(LessThan)
  {
    assert StartsWith("less than", "less than");
    CeilingPattern(LessThan, "less than");
  }

  /** `(\d+)\s*w\s*\$?(\d+)` for a word `w` that names no ceiling. */
  lemma Middle(toks: seq<Token>, w: string)
    requires toks == [Number, Spaces, Lit(w), Spaces, OptDollar, Number]
    requires |w| > 0 && !IsSpace(w[0]) && !IsDigit(w[0]) && !CeilingWord(w)
    ensures Determinate(toks) && Groups(toks) == 2 && !NamesCeiling(toks)
    ensures forall c :: CanStart(toks, Some(c)) ==> IsDigit(c)
  {
    var t1, t2, t3: seq<Token> := toks[1..], toks[2..], toks[3..];
    assert t1 == [Spaces] + t2 && t2 == [Lit(w)] + t3 && toks == [Number] + t1;
    Tail(t3);
    Worded(t2, w, t3);
    Spaced(t1, t2);
    Grouped(toks, t1);
  }

  lemma DashPattern() ensures WellFormed(Dash) && !NamesCeiling(Dash) && Determinate(Dash) {
    NoCeilingWord("-");
    Middle(Dash[1..], "-");
    Dollar(Dash, Dash[1..]);
  }

  lemma ToPattern() ensures WellFormed(To) && !NamesCeiling(To) && Determinate(To) {
    NoCeilingWord("to");
    Middle(To[1..], "to");
    Dollar(To, To[1..]);
  }

  lemma BetweenWords(b: string, a: string)
    requires b == "between" && a == "and"
    ensures !CeilingWord(b) && !CeilingWord(a)
  {
    NoCeilingWord(b);
    NoCeilingWord(a);
  }

  lemma BetweenChain(toks: seq<Token>, b: string, a: string)
    requires toks == [Lit(b), Spaces, OptDollar, Number, Spaces, Lit(a), Spaces, OptDollar, Number]
    requires |b| > 0 && !CeilingWord(b)
    requires |a| > 0 && !IsSpace(a[0]) && !IsDigit(a[0]) && !CeilingWord(a)
    ensures WellFormed(toks) && !NamesCeiling(toks) && Determinate(toks)
  {
    var t1, t2, t3 := toks[1..], toks[2..], toks[3..];
    assert toks == [Lit(b)] + t1 && t1 == [Spaces] + t2 && t2 == [OptDollar] + t3;
    Middle(t3, a);
    Dollar(t2, t3);
    Spaced(t1, t2);
    Worded(toks, b, t1);
  }

  lemma BetweenPattern()
    ensures WellFormed(Between) && !NamesCeiling(Between) && Determinate(Between)
  {
    BetweenWords("between", "and");
    BetweenChain(Between, "between", "and");
  }

  /** Every pattern is determinate and well formed; exactly the first three name a
      ceiling. */
  lemma PatternFacts(p: nat)
    requires p < |Patterns|
    ensures Determinate(Patterns[p]) && WellFormed(Patterns[p])
    ensures NamesCeiling(Patterns[p]) <==> p < 3
  {
    if p == 0 { UnderPattern(); }
    else if p == 1 { BelowPattern(); }
    else if p == 2 { LessThanPattern(); }
    else if p == 3 { DashPattern(); }
    else if p == 4 { BetweenPattern(); }
    else { ToPattern(); }
  }

  /** The bounds read off a match of `toks`. */
  function BoundsOf(toks: seq<Token>, h: Hit): (b: Bounds)
    requires WellFormed(toks) && |h.groups| == Groups(toks)
    requires forall m :: 0 <= m < |h.groups| ==> IsNumeral(h.groups[m])
    ensures b.high.Some? && (b.low.None? <==> NamesCeiling(toks))
    ensures NamesCeiling(toks) ==>
      |h.groups| >= 1 && IsNumeral(h.groups[0]) && b == Bounds(None, Some(DigitsValue(h.groups[0])))
    ensures !NamesCeiling(toks) ==>
      |h.groups| >= 2 && IsNumeral(h.groups[0]) && IsNumeral(h.groups[1])
      && b == Bounds(Some(DigitsValue(h.groups[0])), Some(DigitsValue(h.groups[1])))
  {
    assert IsNumeral(h.groups[0]);
    if NamesCeiling(toks) then Bounds(None, Some(DigitsValue(h.groups[0])))
    else
      assert IsNumeral(h.groups[1]);
      Bounds(Some(DigitsValue(h.groups[0])), Some(DigitsValue(h.groups[1])))
  }

  /** The patterns `pats[p..]`, tried in order against `q`. */
  function Scan(pats: seq<seq<Token>>, q: string, p: nat): Bounds
    requires p <= |pats| && forall j :: 0 <= j < |pats| ==> WellFormed(pats[j])
    decreases |pats| - p
  {
    if p == |pats| then Bounds(None, None)
    else match Search(pats[p], q, 0)
      case Some((_, h)) => BoundsOf(pats[p], h)
      case None => Scan(pats, q, p + 1)
  }

  lemma AllWellFormed()
    ensures forall j :: 0 <= j < |Patterns| ==> WellFormed(Patterns[j])
  {
    forall j | 0 <= j < |Patterns| ensures WellFormed(Patterns[j]) {
      PatternFacts(j);
    }
  }

  /** What `extract_price_range` returns. */
  function Extracted(query: string): Bounds {
    AllWellFormed();
    Scan(Patterns, Lower(query), 0)
  }

  /** `extract_price_range`: the lowercased query against the six patterns. */
  method ExtractPriceRange(query: string) returns (b: Bounds)
    ensures b == Extracted(query)
  {
    AllWellFormed();
    var q := Lower(query);
    b := FirstPatternBounds(Patterns, q);
  }

  /** The loop over the patterns, returning at the first match. */
  method FirstPatternBounds(pats: seq<seq<Token>>, q: string) returns (b: Bounds)
    requires forall j :: 0 <= j < |pats| ==> WellFormed(pats[j])
    ensures b == Scan(pats, q, 0)
  {
    var p := 0;
    while p < |pats|
      invariant p <= |pats| && Scan(pats, q, p) == Scan(pats, q, 0)
    {
      var found := Search(pats[p], q, 0);
      if found.Some? {
        return BoundsOf(pats[p], found.value.1);
      }
      p := p + 1;
    }
    return Bounds(None, None);
  }

  /** The index of the first pattern of `pats[p..]` found in `q`. */
  function FirstFound(pats: seq<seq<Token>>, q: string, p: nat): (r: Option<nat>)
    requires p <= |pats|
    ensures r.Some? ==> p <= r.value < |pats| && Search(pats[r.value], q, 0).Some?
    ensures forall j :: p <= j < (if r.Some? then r.value else |pats|) ==> Search(pats[j], q, 0).None?
    decreases |pats| - p
  {
    if p == |pats| then None
    else if Search(pats[p], q, 0).Some? then Some(p)
    else FirstFound(pats, q, p + 1)
  }

  /** `Scan` gives nothing when no pattern is found, and otherwise the bounds of the first
      pattern found. */
  lemma {:induction false} ScanFirst(pats: seq<seq<Token>>, q: string, p: nat)
    requires p <= |pats| && forall j :: 0 <= j < |pats| ==> WellFormed(pats[j])
    ensures Scan(pats, q, p) == match FirstFound(pats, q, p)
      case None => Bounds(None, None)
      case Some(f) => BoundsOf(pats[f], Search(pats[f], q, 0).value.1)
    decreases |pats| - p
  {
    if p < |pats| && Search(pats[p], q, 0).None? {
      ScanFirst(pats, q, p + 1);
    }
  }

  /** The query gets a ceiling alone exactly when one of the "under", "below" or "less
      than" patterns occurs in it, and a floor and a ceiling exactly when none of those
      does but one of the three range patterns does. A floor never comes without a
      ceiling. */
  lemma ExtractedKinds(query: string)
    ensures Extracted(query).low.Some? ==> Extracted(query).high.Some?
    ensures (Extracted(query).low.None? && Extracted(query).high.Some?) <==>
      exists p :: 0 <= p < 3 && Search(Patterns[p], Lower(query), 0).Some?
    ensures Extracted(query).low.Some? <==>
      (forall p :: 0 <= p < 3 ==> Search(Patterns[p], Lower(query), 0).None?) &&
      (exists p :: 3 <= p < |Patterns| && Search(Patterns[p], Lower(query), 0).Some?)
  {
    var q := Lower(query);
    AllWellFormed();
    ScanFirst(Patterns, q, 0);
    match FirstFound(Patterns, q, 0)
    case None =>
    case Some(f) => PatternFacts(f);
  }

  /** Lower-casing neither creates nor removes digits. */
  lemma LowerDigits(s: string)
    ensures forall k :: 0 <= k < |s| ==> (IsDigit(Lower(s)[k]) <==> IsDigit(s[k]))
  {
  }

  /** A query without a digit has no price bounds. */
  lemma NoDigitNoBounds(query: string)
    requires forall k :: 0 <= k < |query| ==> !IsDigit(query[k])
    ensures Extracted(query) == Bounds(None, None)
  {
    var q := Lower(query);
    LowerDigits(query);
    forall p | 0 <= p < |Patterns| ensures Search(Patterns[p], q, 0).None? {
      PatternFacts(p);
      NoDigitNoMatch(Patterns[p], q);
    }
    AllWellFormed();
    ScanFirst(Patterns, q, 0);
  }
}
