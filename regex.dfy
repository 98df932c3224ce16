/**
 * The fragment of Python's `re` module that the price patterns use: literal text, `\s*`,
 * `\$?` and a captured `(\d+)`. `Back` follows the regex engine (greedy repetition that
 * backtracks one step at a time; the first match in priority order wins), `Search` is
 * `re.search` (the leftmost start that matches). `Possessive` never backtracks; for
 * patterns where no repeated token can be followed by a character of its own class the
 * two agree (`PossessiveIsBack`).
 */
module Regex {
  import opened Basics
  import opened Text

  /** One element of a pattern: a literal, `\s*`, `\$?` or the group `(\d+)`. */
  datatype Token = Lit(text: string) | Spaces | OptDollar | Number

  /** A match at a given start: where it ends and what the groups captured. */
  datatype Hit = Hit(end: nat, groups: seq<string>)

  /** A captured group: one or more decimal digits. */
  predicate IsNumeral(g: string) {
    |g| > 0 && forall k :: 0 <= k < |g| ==> IsDigit(g[k])
  }

  /** The number of groups a pattern captures. */
  function Groups(toks: seq<Token>): nat {
    if toks == [] then 0 else (if toks[0] == Number then 1 else 0) + Groups(toks[1..])
  }

  /** The character at `k`, or `None` at the end of the text. */
  function At(s: string, k: nat): Option<char> {
    if k < |s| then Some(s[k]) else None
  }

  /** The end of the run of white space that starts at `i`. */
  function SkipSpaces(s: string, i: nat): (e: nat)
    requires i <= |s|
    ensures i <= e <= |s| && (e == |s| || !IsSpace(s[e]))
    ensures forall k :: i <= k < e ==> IsSpace(s[k])
    decreases |s| - i
  {
    if i < |s| && IsSpace(s[i]) then SkipSpaces(s, i + 1) else i
  }

  /** The regex engine's match of `toks` at `i`: greedy repetitions first, giving back
      one character at a time when the rest of the pattern fails. */
  function Back(toks: seq<Token>, s: string, i: nat): (r: Option<Hit>)
    requires i <= |s|
    ensures r.Some? ==> i <= r.value.end <= |s| && |r.value.groups| == Groups(toks)
    ensures r.Some? ==> forall m :: 0 <= m < |r.value.groups| ==> IsNumeral(r.value.groups[m])
    decreases |toks|, 0, 0
  {
    if toks == [] then Some(Hit(i, []))
    else match toks[0]
      case Lit(t) =>
        if i + |t| <= |s| && s[i..i + |t|] == t then Back(toks[1..], s, i + |t|) else None
      case Spaces => TrySpaces(toks[1..], s, i, SkipSpaces(s, i))
      case OptDollar =>
        var taken := if i < |s| && s[i] == '$' then Back(toks[1..], s, i + 1) else None;
        if taken.Some? then taken else Back(toks[1..], s, i)
      case Number =>
        var e := SkipDigits(s, i);
        if e == i then None else TryDigits(toks[1..], s, i, e)
  }

  /** `\s*` having taken the spaces up to `k`: the rest of the pattern from `k`, then
      from `k - 1` and so on down to `lo`. */
  function TrySpaces(rest: seq<Token>, s: string, lo: nat, k: nat): (r: Option<Hit>)
    requires lo <= k <= |s|
    ensures r.Some? ==> lo <= r.value.end <= |s| && |r.value.groups| == Groups(rest)
    ensures r.Some? ==> forall m :: 0 <= m < |r.value.groups| ==> IsNumeral(r.value.groups[m])
    decreases |rest|, 1, k - lo
  {
    var r := Back(rest, s, k);
    if r.Some? then r else if k == lo then None else TrySpaces(rest, s, lo, k - 1)
  }

  /** `(\d+)` having taken the digits `s[i..k]`: the rest of the pattern from `k`, then with
      one digit fewer, down to a single digit. */
  function TryDigits(rest: seq<Token>, s: string, i: nat, k: nat): (r: Option<Hit>)
    requires i < k <= |s| && forall j :: i <= j < k ==> IsDigit(s[j])
    ensures r.Some? ==> i <= r.value.end <= |s| && |r.value.groups| == 1 + Groups(rest)
    ensures r.Some? ==> forall m :: 0 <= m < |r.value.groups| ==> IsNumeral(r.value.groups[m])
    decreases |rest|, 1, k - i
  {
    match Back(rest, s, k)
    case Some(h) => Some(Hit(h.end, [s[i..k]] + h.groups))
    case None => if k == i + 1 then None else TryDigits(rest, s, i, k - 1)
  }

  /** A matcher that never gives back what a repetition took. */
  function Possessive(toks: seq<Token>, s: string, i: nat): (r: Option<Hit>)
    requires i <= |s|
    ensures r.Some? ==> i <= r.value.end <= |s|
    decreases |toks|
  {
    if toks == [] then Some(Hit(i, []))
    else match toks[0]
      case Lit(t) =>
        if i + |t| <= |s| && s[i..i + |t|] == t then Possessive(toks[1..], s, i + |t|) else None
      case Spaces => Possessive(toks[1..], s, SkipSpaces(s, i))
      case OptDollar => Possessive(toks[1..], s, if i < |s| && s[i] == '$' then i + 1 else i)
      case Number =>
        var e := SkipDigits(s, i);
        if e == i then None
        else match Possessive(toks[1..], s, e)
          case Some(h) => Some(Hit(h.end, [s[i..e]] + h.groups))
          case None => None
  }

  /** Whether a match of `toks` can begin with `c` (`None`: at the end of the text). */
  predicate CanStart(toks: seq<Token>, c: Option<char>) {
    if toks == [] then true
    else match toks[0]
      case Lit(t) => if t == [] then CanStart(toks[1..], c) else c == Some(t[0])
      case Spaces => (c.Some? && IsSpace(c.value)) || CanStart(toks[1..], c)
      case OptDollar => c == Some('$') || CanStart(toks[1..], c)
      case Number => c.Some? && IsDigit(c.value)
  }

  /** A repetition `x` cannot hand a character of its own class to the `rest` of the
      pattern. One that ends the pattern never gives anything back, since the empty rest
      matches at once. */
  predicate Hands(x: Token, rest: seq<Token>) {
    rest == [] || match x
      case Spaces => forall c :: IsSpace(c) ==> !CanStart(rest, Some(c))
      case Number => forall c :: IsDigit(c) ==> !CanStart(rest, Some(c))
      case OptDollar => !CanStart(rest, Some('$'))
      case Lit(_) => true
  }

  /** No repetition of the pattern can hand a character of its own class on. */
  predicate Determinate(toks: seq<Token>) {
    toks == [] || (Hands(toks[0], toks[1..]) && Determinate(toks[1..]))
  }

  /** A match begins with a character the pattern can start with. */
  lemma {:induction false} BackStarts(toks: seq<Token>, s: string, i: nat)
    requires i <= |s| && Back(toks, s, i).Some?
    ensures CanStart(toks, At(s, i))
    decreases |toks|
  {
    if toks != [] {
      match toks[0]
      case Lit(t) =>
        if t == [] {
          BackStarts(toks[1..], s, i);
        } else {
          assert s[i..i + |t|][0] == s[i];
        }
      case Spaces =>
        if SkipSpaces(s, i) == i {
          BackStarts(toks[1..], s, i);
        }
      case OptDollar =>
        if At(s, i) != Some('$') {
          BackStarts(toks[1..], s, i);
        }
      case Number =>
    }
  }

  lemma {:induction false} TrySpacesNone(rest: seq<Token>, s: string, lo: nat, k: nat)
    requires lo <= k <= |s|
    requires forall m :: lo <= m <= k ==> Back(rest, s, m).None?
    ensures TrySpaces(rest, s, lo, k).None?
    decreases k - lo
  {
    if k > lo {
      TrySpacesNone(rest, s, lo, k - 1);
    }
  }

  lemma {:induction false} TryDigitsNone(rest: seq<Token>, s: string, i: nat, k: nat)
    requires i < k <= |s| && forall j :: i <= j < k ==> IsDigit(s[j])
    requires forall m :: i < m <= k ==> Back(rest, s, m).None?
    ensures TryDigits(rest, s, i, k).None?
    decreases k - i
  {
    if k > i + 1 {
      TryDigitsNone(rest, s, i, k - 1);
    }
  }

  /** After `\s*` took the run `s[lo..e]`, giving spaces back cannot help a rest that
      never starts with a space. */
  lemma SpacesGiveBack(rest: seq<Token>, s: string, lo: nat, e: nat)
    requires lo <= e <= |s| && forall m :: lo <= m < e ==> IsSpace(s[m])
    requires forall c :: IsSpace(c) ==> !CanStart(rest, Some(c))
    requires Back(rest, s, e).None?
    ensures TrySpaces(rest, s, lo, e).None?
  {
    if e > lo {
      forall m | lo <= m <= e - 1 ensures Back(rest, s, m).None? {
        if Back(rest, s, m).Some? {
          BackStarts(rest, s, m);
        }
      }
      TrySpacesNone(rest, s, lo, e - 1);
    }
  }

  /** After `(\d+)` took the run `s[i..e]`, giving digits back cannot help a rest that
      never starts with a digit. */
  lemma DigitsGiveBack(rest: seq<Token>, s: string, i: nat, e: nat)
    requires i < e <= |s| && forall m :: i <= m < e ==> IsDigit(s[m])
    requires forall c :: IsDigit(c) ==> !CanStart(rest, Some(c))
    requires Back(rest, s, e).None?
    ensures TryDigits(rest, s, i, e).None?
  {
    if e > i + 1 {
      forall m | i < m <= e - 1 ensures Back(rest, s, m).None? {
        if Back(rest, s, m).Some? {
          BackStarts(rest, s, m);
        }
      }
      TryDigitsNone(rest, s, i, e - 1);
    }
  }

  /** For a determinate pattern, backtracking never finds anything the first, greedy
      attempt did not: the engine's match is the possessive one. */
  lemma {:induction false} PossessiveIsBack(toks: seq<Token>, s: string, i: nat)
    requires Determinate(toks) && i <= |s|
    ensures Back(toks, s, i) == Possessive(toks, s, i)
    decreases |toks|
  {
    if toks != [] {
      var rest := toks[1..];
      match toks[0]
      case Lit(t) =>
        if i + |t| <= |s| && s[i..i + |t|] == t {
          PossessiveIsBack(rest, s, i + |t|);
        }
      case Spaces =>
        var e := SkipSpaces(s, i);
        PossessiveIsBack(rest, s, e);
        if Back(rest, s, e).None? {
          SpacesGiveBack(rest, s, i, e);
        }
      case OptDollar =>
        if i < |s| && s[i] == '$' {
          PossessiveIsBack(rest, s, i + 1);
          if Back(rest, s, i).Some? {
            BackStarts(rest, s, i);
          }
        } else {
          PossessiveIsBack(rest, s, i);
        }
      case Number =>
        var e := SkipDigits(s, i);
        if e > i {
          PossessiveIsBack(rest, s, e);
          if Back(rest, s, e).None? {
            DigitsGiveBack(rest, s, i, e);
          }
        }
    }
  }

  /** A possessive match of a pattern with a group passes over a digit. */
  lemma {:induction false} PossessiveDigit(toks: seq<Token>, s: string, i: nat)
    requires i <= |s| && Possessive(toks, s, i).Some? && Groups(toks) > 0
    ensures exists k :: i <= k < |s| && IsDigit(s[k])
    decreases |toks|
  {
    var rest := toks[1..];
    match toks[0]
    case Lit(t) => PossessiveDigit(rest, s, i + |t|);
    case Spaces => PossessiveDigit(rest, s, SkipSpaces(s, i));
    case OptDollar => PossessiveDigit(rest, s, if i < |s| && s[i] == '$' then i + 1 else i);
    case Number => assert IsDigit(s[i]);
  }

  /** `re.search`: the match at the leftmost start, at or after `i`, where one exists. */
  function Search(toks: seq<Token>, s: string, i: nat): (r: Option<(nat, Hit)>)
    requires i <= |s|
    ensures r.Some? ==> i <= r.value.0 <= |s| && Back(toks, s, r.value.0) == Some(r.value.1)
    ensures forall st :: i <= st <= |s| && (r.None? || st < r.value.0) ==> Back(toks, s, st).None?
    decreases |s| - i
  {
    match Back(toks, s, i)
    case Some(h) => Some((i, h))
    case None => if i == |s| then None else Search(toks, s, i + 1)
  }

  /** A determinate pattern with a group is found nowhere in a text without digits. */
  lemma NoDigitNoMatch(toks: seq<Token>, s: string)
    requires Determinate(toks) && Groups(toks) > 0
    requires forall k :: 0 <= k < |s| ==> !IsDigit(s[k])
    ensures Search(toks, s, 0).None?
  {
    var r := Search(toks, s, 0);
    if r.Some? {
      PossessiveIsBack(toks, s, r.value.0);
      PossessiveDigit(toks, s, r.value.0);
    }
  }
}
