/**
 * The query normaliser of the product search (`optimize_search_query`): lower-case the
 * query, remove filler phrases, prefix at most one keyword expansion and collapse the
 * white space.
 */
/** The two fixed tables of the query normaliser and what the proofs need to know of them. */
module QueryTables {
  import opened Text

  /** Filler phrases, removed in this order. */
  const Fillers: seq<string> :=
    ["i need", "i want", "looking for", "find me", "search for", "show me", "get me"]

  /** Keyword expansions as (keyword, expansion), in the table's insertion order, which is
      the order they are tried in. */
  const Improvements: seq<(string, string)> := [
    ("hiking", "hiking outdoor gear"),
    ("travel", "travel accessories"),
    ("beach", "beach vacation"),
    ("winter", "winter gear"),
    ("workout", "fitness exercise"),
    ("office", "office supplies"),
    ("kitchen", "kitchen appliances"),
    ("phone", "smartphone accessories"),
    ("laptop", "laptop computer"),
    ("camera", "digital camera photography")
  ]

  /** Each expansion is lower-case and single-spaced; one lemma per entry keeps each
      proof over a literal small. */
  lemma PlainExpansion0()
    ensures NoUpper(Improvements[0].1) && SingleSpaced(Improvements[0].1)
  {
    var e := Improvements[0].1;
    assert e == "hiking outdoor gear";
    assert forall i :: 0 <= i < |e| ==> e[i] == ' ' || 'a' <= e[i] <= 'z';
    assert forall i :: 0 < i < |e| && e[i] == ' ' ==> e[i - 1] != ' ';
    PlainPhrase(e);
  }
  lemma PlainExpansion1()
    ensures NoUpper(Improvements[1].1) && SingleSpaced(Improvements[1].1)
  {
    var e := Improvements[1].1;
    assert e == "travel accessories";
    assert forall i :: 0 <= i < |e| ==> e[i] == ' ' || 'a' <= e[i] <= 'z';
    assert forall i :: 0 < i < |e| && e[i] == ' ' ==> e[i - 1] != ' ';
    PlainPhrase(e);
  }
  lemma PlainExpansion2()
    ensures NoUpper(Improvements[2].1) && SingleSpaced(Improvements[2].1)
  {
    var e := Improvements[2].1;
    assert e == "beach vacation";
    assert forall i :: 0 <= i < |e| ==> e[i] == ' ' || 'a' <= e[i] <= 'z';
    assert forall i :: 0 < i < |e| && e[i] == ' ' ==> e[i - 1] != ' ';
    PlainPhrase(e);
  }
  lemma PlainExpansion3()
    ensures NoUpper(Improvements[3].1) && SingleSpaced(Improvements[3].1)
  {
    var e := Improvements[3].1;
    assert e == "winter gear";
    assert forall i :: 0 <= i < |e| ==> e[i] == ' ' || 'a' <= e[i] <= 'z';
    assert forall i :: 0 < i < |e| && e[i] == ' ' ==> e[i - 1] != ' ';
    PlainPhrase(e);
  }
  lemma PlainExpansion4()
    ensures NoUpper(Improvements[4].1) && SingleSpaced(Improvements[4].1)
  {
    var e := Improvements[4].1;
    assert e == "fitness exercise";
    assert forall i :: 0 <= i < |e| ==> e[i] == ' ' || 'a' <= e[i] <= 'z';
    assert forall i :: 0 < i < |e| && e[i] == ' ' ==> e[i - 1] != ' ';
    PlainPhrase(e);
  }
  lemma PlainExpansion5()
    ensures NoUpper(Improvements[5].1) && SingleSpaced(Improvements[5].1)
  {
    var e := Improvements[5].1;
    assert e == "office supplies";
    assert forall i :: 0 <= i < |e| ==> e[i] == ' ' || 'a' <= e[i] <= 'z';
    assert forall i :: 0 < i < |e| && e[i] == ' ' ==> e[i - 1] != ' ';
    PlainPhrase(e);
  }
  lemma PlainExpansion6()
    ensures NoUpper(Improvements[6].1) && SingleSpaced(Improvements[6].1)
  {
    var e := Improvements[6].1;
    assert e == "kitchen appliances";
    assert forall i :: 0 <= i < |e| ==> e[i] == ' ' || 'a' <= e[i] <= 'z';
    assert forall i :: 0 < i < |e| && e[i] == ' ' ==> e[i - 1] != ' ';
    PlainPhrase(e);
  }
  lemma PlainExpansion7()
    ensures NoUpper(Improvements[7].1) && SingleSpaced(Improvements[7].1)
  {
    var e := Improvements[7].1;
    assert e == "smartphone accessories";
    assert forall i :: 0 <= i < |e| ==> e[i] == ' ' || 'a' <= e[i] <= 'z';
    assert forall i :: 0 < i < |e| && e[i] == ' ' ==> e[i - 1] != ' ';
    PlainPhrase(e);
  }
  lemma PlainExpansion8()
    ensures NoUpper(Improvements[8].1) && SingleSpaced(Improvements[8].1)
  {
    var e := Improvements[8].1;
    assert e == "laptop computer";
    assert forall i :: 0 <= i < |e| ==> e[i] == ' ' || 'a' <= e[i] <= 'z';
    assert forall i :: 0 < i < |e| && e[i] == ' ' ==> e[i - 1] != ' ';
    PlainPhrase(e);
  }
  lemma PlainExpansion9()
    ensures NoUpper(Improvements[9].1) && SingleSpaced(Improvements[9].1)
  {
    var e := Improvements[9].1;
    assert e == "digital camera photography";
    assert forall i :: 0 <= i < |e| ==> e[i] == ' ' || 'a' <= e[i] <= 'z';
    assert forall i :: 0 < i < |e| && e[i] == ' ' ==> e[i - 1] != ' ';
    PlainPhrase(e);
  }

}

module QueryOptimizer {
  import opened Basics
  import opened Text
  import opened QueryTables

  /** Every filler has at least one character. */
  predicate NonEmptyFillers(fillers: seq<string>) {
    forall i :: 0 <= i < |fillers| ==> |fillers[i]| > 0
  }

  lemma FillersNonEmpty()
    ensures NonEmptyFillers(Fillers)
  {
  }

  /** The text after the first `k` fillers were each replaced by '' and the result stripped. */
  function Defill(s: string, fillers: seq<string>, k: nat): (r: string)
    requires k <= |fillers| && NonEmptyFillers(fillers)
    ensures NoUpper(s) ==> NoUpper(r)
  {
    if k == 0 then s else Strip(RemoveAll(Defill(s, fillers, k - 1), fillers[k - 1]))
  }

  /** Entry `k` applies: its keyword occurs in `s` and its expansion does not. */
  predicate Expands(s: string, k: nat)
    requires k < |Improvements|
  {
    Contains(s, Improvements[k].0) && !Contains(s, Improvements[k].1)
  }

  /** The first entry at or after `k` that applies to `s`. */
  function FirstExpansion(s: string, k: nat): (r: Option<nat>)
    requires k <= |Improvements|
    ensures r.Some? ==> k <= r.value < |Improvements| && Expands(s, r.value)
    ensures forall j :: k <= j < (if r.Some? then r.value else |Improvements|) ==> !Expands(s, j)
    decreases |Improvements| - k
  {
    if k == |Improvements| then None
    else if Expands(s, k) then Some(k)
    else FirstExpansion(s, k + 1)
  }

  /** `s` with the expansion of the first applicable entry, if any, put in front. */
  function Expand(s: string): string {
    match FirstExpansion(s, 0)
    case Some(k) => Improvements[k].1 + " " + s
    case None => s
  }

  /** The query once lowered and cleared of fillers: the text the expansion table is
      matched against. */
  function Defilled(query: string): (d: string)
    ensures NoUpper(d)
  {
    FillersNonEmpty();
    Defill(Lower(query), Fillers, |Fillers|)
  }

  /** What `optimize_search_query` returns. */
  function Optimized(query: string): string {
    Collapse(Expand(Defilled(query)))
  }

  /** The filler loop of `optimize_search_query`: each filler in turn is replaced by ''
      and the text stripped. */
  method RemoveFillers(s: string, fillers: seq<string>) returns (q: string)
    requires NonEmptyFillers(fillers)
    ensures q == Defill(s, fillers, |fillers|)
  {
    q := s;
    for i := 0 to |fillers|
      invariant q == Defill(s, fillers, i)
    {
      q := Strip(RemoveAll(q, fillers[i]));
    }
  }

  /** The expansion loop of `optimize_search_query`: the first entry that applies puts its
      expansion in front, and the scan stops there. */
  method PrefixExpansion(d: string) returns (q: string)
    ensures q == Expand(d)
  {
    q := d;
    var k := 0;
    while k < |Improvements|
      invariant k <= |Improvements| && q == d
      invariant FirstExpansion(d, 0) == FirstExpansion(d, k)
    {
      var (keyword, improvement) := Improvements[k];
      if Contains(q, keyword) && !Contains(q, improvement) {
        q := improvement + " " + q;
        return;
      }
      k := k + 1;
    }
  }

  /** `optimize_search_query`: lower-case, remove the fillers, prefix at most one
      expansion, collapse the white space. */
  method OptimizeSearchQuery(query: string) returns (optimized: string)
    ensures optimized == Optimized(query)
  {
    var q := Lower(query);
    FillersNonEmpty();
    q := RemoveFillers(q, Fillers);
    q := PrefixExpansion(q);
    optimized := Collapse(q);
  }

  /** Facts about the expansion table: each keyword starts with a word character and each
      expansion is non-empty, lower-case and single-spaced. */
  lemma ImprovementFacts(k: nat)
    requires k < |Improvements|
    ensures |Improvements[k].0| > 0 && !IsSpace(Improvements[k].0[0])
    ensures |Improvements[k].1| > 0 && NoUpper(Improvements[k].1) && SingleSpaced(Improvements[k].1)
  {
    if k == 0 { PlainExpansion0(); } else if k == 1 { PlainExpansion1(); } else if k == 2 { PlainExpansion2(); } else if k == 3 { PlainExpansion3(); } else if k == 4 { PlainExpansion4(); } else if k == 5 { PlainExpansion5(); } else if k == 6 { PlainExpansion6(); } else if k == 7 { PlainExpansion7(); } else if k == 8 { PlainExpansion8(); } else { PlainExpansion9(); }
  }

  /** Collapsing an expanded text keeps the expansion in front of the collapsed text. */
  lemma CollapseExpanded(d: string, k: nat)
    requires k < |Improvements| && Expands(d, k)
    ensures Collapse(Improvements[k].1 + " " + d) == Improvements[k].1 + " " + Collapse(d)
  {
    ImprovementFacts(k);
    var kw, e := Improvements[k].0, Improvements[k].1;
    ContainsAt(d, kw);
    var i :| OccursAt(d, kw, i);
    assert d[i] == d[i..i + |kw|][0];
    WordsNonEmpty(d, i);
    WordsNonEmpty(e, 0);
    CollapseAroundSpace(e, d);
    CollapseKeeps(e);
  }

  /** Expanding and collapsing a lower-case text gives a lower-case, single-spaced text
      that carries at most one expansion: that of the first applicable entry. */
  lemma ExpandShape(d: string)
    requires NoUpper(d)
    ensures NoUpper(Collapse(Expand(d))) && SingleSpaced(Collapse(Expand(d)))
    ensures match FirstExpansion(d, 0)
      case None => Collapse(Expand(d)) == Collapse(d)
      case Some(k) => Collapse(Expand(d)) == Improvements[k].1 + " " + Collapse(d)
  {
    match FirstExpansion(d, 0)
    case None =>
    case Some(k) =>
      ImprovementFacts(k);
      CollapseExpanded(d, k);
      assert NoUpper(Improvements[k].1 + " " + d);
  }

  /** The optimised query is lower-case, trimmed and single-spaced, and carries at most one
      expansion: that of the first table entry whose keyword occurs in the de-fillered
      query and whose expansion does not, followed by the collapsed query itself. */
  lemma OptimizedShape(query: string)
    ensures NoUpper(Optimized(query)) && SingleSpaced(Optimized(query))
    ensures match FirstExpansion(Defilled(query), 0)
      case None => Optimized(query) == Collapse(Defilled(query))
      case Some(k) =>
        && Contains(Defilled(query), Improvements[k].0)
        && !Contains(Defilled(query), Improvements[k].1)
        && (forall j :: 0 <= j < k ==> !Expands(Defilled(query), j))
        && Optimized(query) == Improvements[k].1 + " " + Collapse(Defilled(query))
  {
    ExpandShape(Defilled(query));
  }
}
