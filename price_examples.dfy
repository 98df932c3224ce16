/**
 * Worked examples of `extract_price_range`, computed step by step.
 */
module PriceRangeExample {
  import opened Basics
  import opened Text
  import opened Regex
  import opened PriceRange

  /** A pattern led by a word that does not occur in the text is found nowhere. */
  lemma AbsentWord(toks: seq<Token>, w: string, s: string)
    requires toks != [] && toks[0] == Lit(w) && !Contains(s, w)
    ensures Search(toks, s, 0).None?
  {
    var r := Search(toks, s, 0);
    if r.Some? {
      var st := r.value.0;
      assert OccursAt(s, w, st);
      ContainsAt(s, w);
    }
  }

  lemma UnderMatch(q: string)
    requires q == "under $50"
    ensures Possessive(Under, q, 0) == Some(Hit(9, ["50"]))
  {
    var t1, t2, t3: seq<Token> := [Spaces, OptDollar, Number], [OptDollar, Number], [Number];
    assert Under[1..] == t1 && t1[1..] == t2 && t2[1..] == t3 && t3[1..] == [];
    assert q[0..5] == "under" && q[7..9] == "50";
    assert SkipSpaces(q, 5) == 6;
    assert SkipDigits(q, 7) == 9;
    assert Possessive(t3[1..], q, 9) == Some(Hit(9, []));
    assert [q[7..9]] + [] == [q[7..9]];
    assert Possessive(t3, q, 7) == Some(Hit(9, [q[7..9]]));
    assert Possessive(t2, q, 6) == Possessive(t3, q, 7);
    assert Possessive(t1, q, 5) == Possessive(t2, q, 6);
  }

  /** "under $50" gives a ceiling of 50 and no floor. */
  lemma UnderExample(query: string)
    requires query == "under $50"
    ensures Extracted(query) == Bounds(None, Some(50))
  {
    assert NoUpper(query);
    LowerKeeps(query);
    UnderPattern();
    PossessiveIsBack(Under, query, 0);
    UnderMatch(query);
    UnderDecides(query, Search(Under, query, 0).value.1);
    assert DigitsValue("50") == 50;
  }

  /** When the "under" pattern occurs, its group is the ceiling and there is no floor. */
  lemma UnderDecides(q: string, h: Hit)
    requires Lower(q) == q
    requires Search(Under, q, 0).Some? && Search(Under, q, 0).value.1 == h
    requires |h.groups| == 1 && IsNumeral(h.groups[0])
    ensures Extracted(q) == Bounds(None, Some(DigitsValue(h.groups[0])))
  {
    UnderPattern();
    AllWellFormed();
    ScanFirst(Patterns, q, 0);
    assert Patterns[0] == Under;
  }

  lemma SkipDigitsRun(s: string, i: nat, j: nat)
    requires i <= j <= |s| && forall k :: i <= k < j ==> IsDigit(s[k])
    requires j == |s| || !IsDigit(s[j])
    ensures SkipDigits(s, i) == j
    decreases j - i
  {
    if i < j {
      SkipDigitsRun(s, i + 1, j);
    }
  }

  /* One step of the possessive matcher per token. */

  lemma StepLit(toks: seq<Token>, s: string, i: nat, t: string)
    requires toks != [] && toks[0] == Lit(t) && i + |t| <= |s| && s[i..i + |t|] == t
    ensures Possessive(toks, s, i) == Possessive(toks[1..], s, i + |t|)
  {
  }

  lemma StepSpaces(toks: seq<Token>, s: string, i: nat)
    requires toks != [] && toks[0] == Spaces && i <= |s| && (i == |s| || !IsSpace(s[i]))
    ensures Possessive(toks, s, i) == Possessive(toks[1..], s, i)
  {
  }

  lemma StepDollar(toks: seq<Token>, s: string, i: nat)
    requires toks != [] && toks[0] == OptDollar && i < |s| && s[i] == '$'
    ensures Possessive(toks, s, i) == Possessive(toks[1..], s, i + 1)
  {
  }

  lemma StepNumber(toks: seq<Token>, s: string, i: nat, e: nat, h: Hit)
    requires toks != [] && toks[0] == Number && i < e <= |s|
    requires forall k :: i <= k < e ==> IsDigit(s[k])
    requires e == |s| || !IsDigit(s[e])
    requires Possessive(toks[1..], s, e) == Some(h)
    ensures Possessive(toks, s, i) == Some(Hit(h.end, [s[i..e]] + h.groups))
  {
    SkipDigitsRun(s, i, e);
  }

  /** `\s*\$?(\d+)` on a `$` and a numeral running to the end of the text. */
  lemma TailMatch(q: string, i: nat, b: string)
    requires i + 1 + |b| == |q| && q[i] == '$' && q[i + 1..] == b && IsNumeral(b)
    ensures Possessive([Spaces, OptDollar, Number], q, i) == Some(Hit(|q|, [b]))
  {
    var t1: seq<Token> := [Spaces, OptDollar, Number];
    var t2, t3 := t1[1..], t1[2..];
    assert t2[1..] == t3 && t3[1..] == [];
    assert Possessive(t3[1..], q, |q|) == Some(Hit(|q|, []));
    StepNumber(t3, q, i + 1, |q|, Hit(|q|, []));
    assert q[i + 1..|q|] == b;
    assert [b] + [] == [b];
    StepDollar(t2, q, i);
    StepSpaces(t1, q, i);
  }

  /** `\s*-` and the tail on `-$b`. */
  lemma DashTailMatch(q: string, n: nat, b: string)
    requires |q| == n + 3 + |b| && IsNumeral(b)
    requires q[n + 1] == '-' && q[n + 2] == '$' && q[n + 3..] == b
    ensures Possessive([Spaces, Lit("-"), Spaces, OptDollar, Number], q, n + 1) == Some(Hit(|q|, [b]))
  {
    var t2: seq<Token> := [Spaces, Lit("-"), Spaces, OptDollar, Number];
    var t3, t4 := t2[1..], t2[2..];
    assert t3[1..] == t4 && t4 == [Spaces, OptDollar, Number];
    TailMatch(q, n + 2, b);
    assert q[n + 1..n + 2] == "-";
    StepLit(t3, q, n + 1, "-");
    StepSpaces(t2, q, n + 1);
  }

  /** `(\d+)` on `a`, followed by a match of the rest giving `b`. */
  lemma RangeMatch(toks: seq<Token>, q: string, a: string, b: string)
    requires toks != [] && toks[0] == Number && IsNumeral(a)
    requires |a| + 1 < |q| && q[1..|a| + 1] == a && !IsDigit(q[|a| + 1])
    requires Possessive(toks[1..], q, |a| + 1) == Some(Hit(|q|, [b]))
    ensures Possessive(toks, q, 1) == Some(Hit(|q|, [a, b]))
  {
    NumeralAt(q, 1, a);
    StepNumber(toks, q, 1, |a| + 1, Hit(|q|, [b]));
    assert [q[1..|a| + 1]] + [b] == [a, b];
  }

  lemma NumeralAt(q: string, i: nat, a: string)
    requires i + |a| <= |q| && q[i..i + |a|] == a && IsNumeral(a)
    ensures forall k :: i <= k < i + |a| ==> IsDigit(q[k])
  {
    forall k | i <= k < i + |a| ensures IsDigit(q[k]) {
      assert q[k] == q[i..i + |a|][k - i];
    }
  }

  /** `$a-$b` for two numerals `a` and `b` matches the dash pattern as a whole, `a` and
      `b` being the groups. */
  lemma DashMatch(q: string, a: string, b: string)
    requires IsNumeral(a) && IsNumeral(b) && q == "$" + a + "-$" + b
    ensures Possessive(Dash, q, 0) == Some(Hit(|q|, [a, b]))
  {
    DashLayout(q, a, b);
    assert Possessive(Dash[2..], q, |a| + 1) == Some(Hit(|q|, [b])) by {
      assert Dash[2..] == [Spaces, Lit("-"), Spaces, OptDollar, Number];
      DashTailMatch(q, |a|, b);
    }
    assert Dash[1..][1..] == Dash[2..];
    RangeMatch(Dash[1..], q, a, b);
    StepDollar(Dash, q, 0);
  }

  /** Where the pieces of `$a-$b` sit. */
  lemma DashLayout(q: string, a: string, b: string)
    requires q == "$" + a + "-$" + b
    ensures |q| == |a| + 3 + |b| && q[0] == '$'
    ensures q[1..|a| + 1] == a && q[|a| + 1] == '-' && q[|a| + 2] == '$' && q[|a| + 3..] == b
  {
  }

  /** The three ceiling patterns need a letter; a text without 'u' and 'l' has none
      of their words. */
  lemma NoCeilingMatch(q: string)
    requires 'u' !in q && 'l' !in q
    ensures forall p :: 0 <= p < 3 ==> Search(Patterns[p], q, 0).None?
  {
    MissingChar(q, "under", 0);
    MissingChar(q, "below", 2);
    MissingChar(q, "less than", 0);
    AbsentWord(Under, "under", q);
    AbsentWord(Below, "below", q);
    AbsentWord(LessThan, "less than", q);
  }

  /** A query `$a-$b` gives the floor `a` and the ceiling `b` as written, whichever is
      larger. */
  lemma DashBounds(query: string, a: string, b: string)
    requires IsNumeral(a) && IsNumeral(b) && query == "$" + a + "-$" + b
    ensures Extracted(query) == Bounds(Some(DigitsValue(a)), Some(DigitsValue(b)))
  {
    assert NoUpper(query);
    LowerKeeps(query);
    assert 'u' !in query && 'l' !in query;
    NoCeilingMatch(query);
    DashPattern();
    PossessiveIsBack(Dash, query, 0);
    DashMatch(query, a, b);
    DashDecides(query, Search(Dash, query, 0).value.1);
  }

  /** When no ceiling pattern occurs and the dash pattern does, its two groups are the
      bounds. */
  lemma DashDecides(q: string, h: Hit)
    requires Lower(q) == q
    requires forall p :: 0 <= p < 3 ==> Search(Patterns[p], q, 0).None?
    requires Search(Dash, q, 0).Some? && Search(Dash, q, 0).value.1 == h
    requires |h.groups| == 2 && IsNumeral(h.groups[0]) && IsNumeral(h.groups[1])
    ensures Extracted(q) == Bounds(Some(DigitsValue(h.groups[0])), Some(DigitsValue(h.groups[1])))
  {
    DashPattern();
    AllWellFormed();
    ScanFirst(Patterns, q, 0);
    assert Patterns[3] == Dash;
    var f := FirstFound(Patterns, q, 0);
    assert f.Some? && f.value <= 3;
    assert f == Some(3);
  }

  /** "$20-$100" gives the floor 20 and the ceiling 100. */
  lemma DashExample(query: string)
    requires query == "$20-$100"
    ensures Extracted(query) == Bounds(Some(20), Some(100))
  {
    var a, b := "20", "100";
    assert query == "$" + a + "-$" + b;
    HundredValue(b);
    TwentyValue(a);
    DashBounds(query, a, b);
  }

  /** "$100-$20" gives the floor 100 and the ceiling 20: the bounds are not put in order. */
  lemma ReversedExample(query: string)
    requires query == "$100-$20"
    ensures Extracted(query) == Bounds(Some(100), Some(20))
  {
    var a, b := "100", "20";
    assert query == "$" + a + "-$" + b;
    HundredValue(a);
    TwentyValue(b);
    DashBounds(query, a, b);
  }

  /** "100" reads as 100, digit by digit. */
  lemma HundredValue(g: string)
    requires g == "100"
    ensures DigitsValue(g) == 100
  {
    assert g[..2] == "10" && "10"[..1] == "1" && "1"[..0] == "";
    assert DigitsValue("1") == 1;
    assert DigitsValue("10") == 10;
  }

  /** "20" reads as 20, digit by digit. */
  lemma TwentyValue(g: string)
    requires g == "20"
    ensures DigitsValue(g) == 20
  {
    assert g[..1] == "2" && "2"[..0] == "";
    assert DigitsValue("2") == 2;
  }

  /** "nice shoes" has no digit and so no bounds. */
  lemma NoPriceExample(query: string)
    requires query == "nice shoes"
    ensures Extracted(query) == Bounds(None, None)
  {
    NoDigitNoBounds(query);
  }
}
