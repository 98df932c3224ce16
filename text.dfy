/**
 * The handful of Python string builtins the search component leans on, restricted to
 * ASCII: `str.lower`, `in` on strings, `str.replace(x, '')`, `str.strip`,
 * `' '.join(s.split())`, `str(int)` and slicing with an ellipsis.
 */
module Text {

  /** `str.isspace()` on the ASCII range: space, tab, line feed, vertical tab,
      form feed, carriage return and the separators 0x1c-0x1f. */
  predicate IsSpace(c: char) {
    c == ' ' || ('\U{9}' <= c <= '\U{D}') || ('\U{1C}' <= c <= '\U{1F}')
  }

  predicate IsDigit(c: char) { '0' <= c <= '9' }

  predicate IsUpper(c: char) { 'A' <= c <= 'Z' }

  function LowerChar(c: char): (d: char)
    ensures !IsUpper(d)
    ensures !IsUpper(c) ==> d == c
    ensures IsUpper(c) ==> d as int == c as int + 32
  {
    if IsUpper(c) then (c as int + 32) as char else c
  }

  /** `str.lower()` for ASCII letters; every other character is kept. */
  function Lower(s: string): (r: string)
    ensures |r| == |s|
    ensures forall i :: 0 <= i < |s| ==> r[i] == LowerChar(s[i])
  {
    seq(|s|, i requires 0 <= i < |s| => LowerChar(s[i]))
  }

  /** No ASCII capital letter occurs in `s`. */
  predicate NoUpper(s: string) {
    forall i :: 0 <= i < |s| ==> !IsUpper(s[i])
  }

  /** Lower-casing a text without capitals changes nothing. */
  lemma LowerKeeps(s: string)
    requires NoUpper(s)
    ensures Lower(s) == s
  {
  }

  predicate StartsWith(s: string, p: string) {
    |p| <= |s| && s[..|p|] == p
  }

  /** Python's `sub in s`. */
  predicate Contains(s: string, sub: string)
    decreases |s|
  {
    StartsWith(s, sub) || (|s| > 0 && Contains(s[1..], sub))
  }

  /** `sub` occurs in `s` starting at index `i`. */
  predicate OccursAt(s: string, sub: string, i: int) {
    0 <= i <= |s| - |sub| && s[i..i + |sub|] == sub
  }

  /** `Contains` holds exactly when `sub` occurs at some index of `s`. */
  lemma {:induction false} ContainsAt(s: string, sub: string)
    ensures Contains(s, sub) <==> exists i :: OccursAt(s, sub, i)
    decreases |s|
  {
    if StartsWith(s, sub) {
      assert OccursAt(s, sub, 0);
    } else if |s| == 0 {
    } else {
      ContainsAt(s[1..], sub);
      if exists i :: OccursAt(s, sub, i) {
        var i :| OccursAt(s, sub, i);
        assert i != 0;
        assert s[1..][i - 1..i - 1 + |sub|] == s[i..i + |sub|];
        assert OccursAt(s[1..], sub, i - 1);
      }
      if Contains(s[1..], sub) {
        var i :| OccursAt(s[1..], sub, i);
        assert s[1..][i..i + |sub|] == s[i + 1..i + 1 + |sub|];
        assert OccursAt(s, sub, i + 1);
      }
    }
  }

  /** Occurrence is transitive: a text containing `mid` contains everything `mid` contains. */
  lemma ContainsTrans(s: string, mid: string, sub: string)
    requires Contains(s, mid) && Contains(mid, sub)
    ensures Contains(s, sub)
  {
    ContainsAt(s, mid);
    ContainsAt(mid, sub);
    var i :| OccursAt(s, mid, i);
    var j :| OccursAt(mid, sub, j);
    assert mid[j..j + |sub|] == s[i..i + |mid|][j..j + |sub|];
    forall k | 0 <= k < |sub| ensures s[i + j..i + j + |sub|][k] == sub[k] {
      assert mid[j + k] == s[i + j + k];
    }
    assert s[i + j..i + j + |sub|] == sub;
    assert OccursAt(s, sub, i + j);
    ContainsAt(s, sub);
  }

  /** A text lacking one of the characters of `p` does not contain `p`. */
  lemma MissingChar(s: string, p: string, j: int)
    requires 0 <= j < |p| && p[j] !in s
    ensures !Contains(s, p)
  {
    ContainsAt(s, p);
  }

  /** Removing a pattern that does not occur changes nothing. */
  lemma {:induction false} RemoveAbsent(s: string, pat: string)
    requires |pat| > 0 && !Contains(s, pat)
    ensures RemoveAll(s, pat) == s
    decreases |s|
  {
    if |s| >= |pat| {
      assert s[..|pat|] != pat;
      RemoveAbsent(s[1..], pat);
      assert [s[0]] + s[1..] == s;
    }
  }

  /** `s.replace(pat, '')`: every non-overlapping occurrence of `pat`, scanning left to
      right, is removed. */
  function RemoveAll(s: string, pat: string): (r: string)
    requires |pat| > 0
    ensures |r| <= |s|
    ensures r == s <==> !Contains(s, pat)
    ensures NoUpper(s) ==> NoUpper(r)
    decreases |s|
  {
    if |s| < |pat| then
      ShortMisses(s, pat);
      s
    else if s[..|pat|] == pat then RemoveAll(s[|pat|..], pat)
    else
      assert !StartsWith(s, pat);
      [s[0]] + RemoveAll(s[1..], pat)
  }

  /** A text shorter than `sub` does not contain it. */
  lemma {:induction false} ShortMisses(s: string, sub: string)
    requires |s| < |sub|
    ensures !Contains(s, sub)
    decreases |s|
  {
    if |s| > 0 {
      ShortMisses(s[1..], sub);
    }
  }

  /** `s` without any occurrence of the character `c`. */
  function DropChar(s: string, c: char): (r: string)
    ensures |r| <= |s| && forall k :: 0 <= k < |r| ==> r[k] != c
  {
    if s == [] then [] else (if s[0] == c then [] else [s[0]]) + DropChar(s[1..], c)
  }

  /** Removing a one-character pattern drops that character. */
  lemma {:induction false} RemoveAllChar(s: string, c: char)
    ensures RemoveAll(s, [c]) == DropChar(s, c)
    decreases |s|
  {
    if |s| >= 1 {
      RemoveAllChar(s[1..], c);
      if s[..1] == [c] {
        assert s[0] == c;
      } else {
        assert s[0] != c;
      }
    }
  }

  lemma {:induction false} DropCharAppend(a: string, b: string, c: char)
    ensures DropChar(a + b, c) == DropChar(a, c) + DropChar(b, c)
    decreases |a|
  {
    if a != [] {
      assert (a + b)[0] == a[0];
      assert (a + b)[1..] == a[1..] + b;
      DropCharAppend(a[1..], b, c);
      var h := if a[0] == c then [] else [a[0]];
      assert DropChar(a + b, c) == h + (DropChar(a[1..], c) + DropChar(b, c));
      assert DropChar(a, c) == h + DropChar(a[1..], c);
    } else {
      assert a + b == b;
    }
  }

  lemma {:induction false} DropCharAbsent(s: string, c: char)
    requires forall k :: 0 <= k < |s| ==> s[k] != c
    ensures DropChar(s, c) == s
    decreases |s|
  {
    if s != [] {
      DropCharAbsent(s[1..], c);
    }
  }

  /** Dropping `c` from a text of digits and `c`s leaves digits. */
  lemma {:induction false} DropCharDigits(s: string, c: char)
    requires forall k :: 0 <= k < |s| ==> IsDigit(s[k]) || s[k] == c
    ensures forall k :: 0 <= k < |DropChar(s, c)| ==> IsDigit(DropChar(s, c)[k])
    decreases |s|
  {
    if s != [] {
      DropCharDigits(s[1..], c);
    }
  }

  /** Dropping a non-digit keeps every digit: the result holds a digit iff `s` does. */
  lemma {:induction false} DropCharKeepsDigits(s: string, c: char)
    requires !IsDigit(c)
    ensures NoDigitIn(DropChar(s, c)) <==> NoDigitIn(s)
    decreases |s|
  {
    if s != [] {
      var h: string := if s[0] == c then [] else [s[0]];
      DropCharKeepsDigits(s[1..], c);
      NoDigitInAppend(h, DropChar(s[1..], c));
      assert s == [s[0]] + s[1..];
      NoDigitInAppend([s[0]], s[1..]);
    }
  }

  /** `s` holds no digit. */
  predicate NoDigitIn(s: string) {
    forall k :: 0 <= k < |s| ==> !IsDigit(s[k])
  }

  /** A concatenation holds no digit iff neither part does. */
  lemma NoDigitInAppend(h: string, t: string)
    ensures NoDigitIn(h + t) <==> NoDigitIn(h) && NoDigitIn(t)
  {
    if NoDigitIn(h + t) {
      forall k | 0 <= k < |h| ensures !IsDigit(h[k]) {
        assert (h + t)[k] == h[k];
      }
      forall k | 0 <= k < |t| ensures !IsDigit(t[k]) {
        assert (h + t)[|h| + k] == t[k];
      }
    }
  }

  function StripStart(s: string): (r: string)
    ensures |r| <= |s| && r == s[|s| - |r|..]
    ensures r == [] || !IsSpace(r[0])
    ensures forall k :: 0 <= k < |s| - |r| ==> IsSpace(s[k])
    decreases |s|
  {
    if |s| > 0 && IsSpace(s[0]) then StripStart(s[1..]) else s
  }

  function StripEnd(s: string): (r: string)
    ensures |r| <= |s| && r == s[..|r|]
    ensures r == [] || !IsSpace(r[|r| - 1])
    ensures forall k :: |r| <= k < |s| ==> IsSpace(s[k])
    decreases |s|
  {
    if |s| > 0 && IsSpace(s[|s| - 1]) then StripEnd(s[..|s| - 1]) else s
  }

  /** `r` is `s` with some white space removed at its two ends and nothing else. */
  ghost predicate Trims(s: string, r: string) {
    exists i, j :: 0 <= i <= j <= |s| && r == s[i..j]
      && forall k :: 0 <= k < i || j <= k < |s| ==> IsSpace(s[k])
  }

  /** `s.strip()`: the longest infix of `s` that neither starts nor ends with white space. */
  function Strip(s: string): (r: string)
    ensures r == [] || (!IsSpace(r[0]) && !IsSpace(r[|r| - 1]))
    ensures Trims(s, r)
    ensures NoUpper(s) ==> NoUpper(r)
  {
    var t := StripStart(s);
    var r := StripEnd(t);
    assert r == [] || r[0] == t[0];
    StripInfix(s, t, r);
    r
  }

  /** Stripping both ends leaves an infix of `s` with only white space around it. */
  lemma StripInfix(s: string, t: string, r: string)
    requires |t| <= |s| && t == s[|s| - |t|..] && forall k :: 0 <= k < |s| - |t| ==> IsSpace(s[k])
    requires |r| <= |t| && r == t[..|r|] && forall k :: |r| <= k < |t| ==> IsSpace(t[k])
    ensures Trims(s, r)
  {
    var i := |s| - |t|;
    var j := i + |r|;
    assert s[i..j] == r by {
      forall m | 0 <= m < |r|
        ensures s[i + m] == r[m]
      {
        assert r[m] == t[m] == s[i + m];
      }
    }
    forall k | j <= k < |s|
      ensures IsSpace(s[k])
    {
      assert s[k] == t[k - i];
    }
    assert forall k :: 0 <= k < i || j <= k < |s| ==> IsSpace(s[k]);
  }

  /** Stripping a text whose ends are not white space changes nothing. */
  lemma StripKeeps(s: string)
    requires |s| > 0 && !IsSpace(s[0]) && !IsSpace(s[|s| - 1])
    ensures Strip(s) == s
  {
  }

  /** A word of `s.split()`: non-empty and free of white space. */
  predicate IsWord(w: string) {
    |w| > 0 && forall i :: 0 <= i < |w| ==> !IsSpace(w[i])
  }

  /** The longest prefix of `s` free of white space. */
  function TakeWord(s: string): (w: string)
    ensures |w| <= |s| && w == s[..|w|]
    ensures forall i :: 0 <= i < |w| ==> !IsSpace(w[i])
    ensures |w| == |s| || IsSpace(s[|w|])
    decreases |s|
  {
    if s == [] || IsSpace(s[0]) then [] else [s[0]] + TakeWord(s[1..])
  }

  /** `s.split()` with no separator: the maximal runs of non-space characters, in order. */
  function Words(s: string): (ws: seq<string>)
    ensures forall k :: 0 <= k < |ws| ==> IsWord(ws[k])
    ensures NoUpper(s) ==> forall k :: 0 <= k < |ws| ==> NoUpper(ws[k])
    decreases |s|
  {
    if s == [] then []
    else if IsSpace(s[0]) then Words(s[1..])
    else
      var w := TakeWord(s);
      assert w[0] == s[0];
      [w] + Words(s[|w|..])
  }

  /** `' '.join(ws)`. */
  function JoinSpace(ws: seq<string>): (r: string)
    ensures (forall k :: 0 <= k < |ws| ==> NoUpper(ws[k])) ==> NoUpper(r)
  {
    if |ws| == 0 then ""
    else if |ws| == 1 then ws[0]
    else ws[0] + " " + JoinSpace(ws[1..])
  }

  /** Trimmed and single-spaced: the only white space is a lone `' '` strictly between
      two other characters. */
  predicate SingleSpaced(s: string) {
    forall i :: 0 <= i < |s| && IsSpace(s[i]) ==>
      s[i] == ' ' && 0 < i < |s| - 1 && !IsSpace(s[i + 1])
  }

  /** Joining words with single spaces gives a single-spaced text that starts and ends
      with a word character. */
  lemma {:induction false} JoinSpaceSingleSpaced(ws: seq<string>)
    requires forall k :: 0 <= k < |ws| ==> IsWord(ws[k])
    ensures SingleSpaced(JoinSpace(ws))
    ensures |ws| > 0 ==> |JoinSpace(ws)| > 0 && !IsSpace(JoinSpace(ws)[0])
                         && !IsSpace(JoinSpace(ws)[|JoinSpace(ws)| - 1])
  {
    if |ws| >= 2 {
      JoinSpaceSingleSpaced(ws[1..]);
      var w, t := ws[0], JoinSpace(ws[1..]);
      var r := w + " " + t;
      assert JoinSpace(ws) == r;
      forall i | 0 <= i < |r| && IsSpace(r[i])
        ensures r[i] == ' ' && 0 < i < |r| - 1 && !IsSpace(r[i + 1])
      {
        if i == |w| {
          assert r[i + 1] == t[0];
        } else {
          assert r[i] == t[i - |w| - 1];
          assert r[i + 1] == t[i - |w|];
        }
      }
    } else if |ws| == 1 {
      assert JoinSpace(ws) == ws[0];
    }
  }

  /** `' '.join(s.split())`: white space collapsed to single spaces and trimmed. */
  function Collapse(s: string): (r: string)
    ensures SingleSpaced(r)
    ensures NoUpper(s) ==> NoUpper(r)
  {
    JoinSpaceSingleSpaced(Words(s));
    JoinSpace(Words(s))
  }

  /** A text made of lower-case ASCII letters and single inner spaces is single-spaced. */
  lemma PlainPhrase(e: string)
    requires |e| > 0 && e[0] != ' ' && e[|e| - 1] != ' '
    requires forall i :: 0 <= i < |e| ==> e[i] == ' ' || 'a' <= e[i] <= 'z'
    requires forall i :: 0 < i < |e| && e[i] == ' ' ==> e[i - 1] != ' '
    ensures NoUpper(e) && SingleSpaced(e)
  {
    forall i | 0 <= i < |e|
      ensures !IsUpper(e[i])
      ensures IsSpace(e[i]) ==> e[i] == ' ' && 0 < i < |e| - 1 && !IsSpace(e[i + 1])
    {
      if IsSpace(e[i]) {
        assert e[i + 1] == ' ' || 'a' <= e[i + 1] <= 'z';
      }
    }
  }

  /** Text with a non-space character splits into at least one word. */
  lemma {:induction false} WordsNonEmpty(s: string, i: int)
    requires 0 <= i < |s| && !IsSpace(s[i])
    ensures |Words(s)| > 0
    decreases |s|
  {
    if IsSpace(s[0]) {
      WordsNonEmpty(s[1..], i - 1);
    }
  }

  /** A word ends at the first white space, whatever follows it. */
  lemma {:induction false} TakeWordBeforeSpace(a: string, c: string)
    requires |c| > 0 && IsSpace(c[0])
    ensures TakeWord(a + c) == TakeWord(a)
    decreases |a|
  {
    if a == [] {
      assert a + c == c;
    } else if !IsSpace(a[0]) {
      assert (a + c)[1..] == a[1..] + c;
      TakeWordBeforeSpace(a[1..], c);
    }
  }

  /** Dropping a prefix of the first part of `a + m + b`. */
  lemma DropFront(a: string, m: string, b: string, k: nat)
    requires k <= |a|
    ensures (a + m + b)[k..] == a[k..] + m + b
  {
  }

  /** The words of a text that starts with a word character: that word, then the rest. */
  lemma WordsFront(s: string)
    requires |s| > 0 && !IsSpace(s[0])
    ensures Words(s) == [TakeWord(s)] + Words(s[|TakeWord(s)|..])
  {
  }

  /** Splitting `a + " " + b` gives the words of `a` followed by the words of `b`. */
  lemma {:induction false} WordsAroundSpace(a: string, b: string)
    ensures Words(a + " " + b) == Words(a) + Words(b)
    decreases |a|
  {
    var s := a + " " + b;
    if a == [] {
      assert s[1..] == b;
    } else if IsSpace(a[0]) {
      DropFront(a, " ", b, 1);
      WordsAroundSpace(a[1..], b);
    } else {
      var w := TakeWord(a);
      assert TakeWord(s) == w by {
        AppendAssoc(a, " ", b);
        TakeWordBeforeSpace(a, " " + b);
      }
      DropFront(a, " ", b, |w|);
      WordsAroundSpace(a[|w|..], b);
      WordsFront(s);
      WordsFront(a);
      AppendAssoc([w], Words(a[|w|..]), Words(b));
    }
  }

  /** Joining two non-empty word lists puts one space between the two joins. */
  lemma {:induction false} JoinSpaceAppend(xs: seq<string>, ys: seq<string>)
    requires |xs| > 0 && |ys| > 0
    ensures JoinSpace(xs + ys) == JoinSpace(xs) + " " + JoinSpace(ys)
    decreases |xs|
  {
    if |xs| == 1 {
      assert (xs + ys)[1..] == ys;
    } else {
      assert (xs + ys)[1..] == xs[1..] + ys;
      JoinSpaceAppend(xs[1..], ys);
    }
  }

  /** In a single-spaced text, the first word is followed by one space and a
      single-spaced remainder that starts with a word character. */
  lemma SingleSpacedRest(e: string, w: string)
    requires SingleSpaced(e) && w == TakeWord(e) && |w| < |e|
    ensures e[|w|] == ' ' && |w| + 1 < |e| && !IsSpace(e[|w| + 1])
    ensures SingleSpaced(e[|w| + 1..])
  {
    var rest := e[|w| + 1..];
    forall i | 0 <= i < |rest| && IsSpace(rest[i])
      ensures rest[i] == ' ' && 0 < i < |rest| - 1 && !IsSpace(rest[i + 1])
    {
      assert rest[i] == e[|w| + 1 + i];
      assert IsSpace(e[|w| + 1 + i]);
    }
  }

  /** The words of a text that starts with word `w` and a space. */
  lemma WordsAfterFirst(e: string, w: string)
    requires |e| > 0 && !IsSpace(e[0]) && w == TakeWord(e) && |w| < |e|
    ensures Words(e) == [w] + Words(e[|w| + 1..])
  {
    assert e[|w|..][1..] == e[|w| + 1..];
  }

  /** Joining a non-empty list behind a first word. */
  lemma JoinSpaceFront(w: string, ws: seq<string>)
    requires |ws| > 0
    ensures JoinSpace([w] + ws) == w + " " + JoinSpace(ws)
  {
    assert ([w] + ws)[1..] == ws;
  }

  /** A text around a space at `k`. */
  lemma SplitAtSpace(e: string, k: nat)
    requires k < |e| && e[k] == ' '
    ensures e == e[..k] + " " + e[k + 1..]
  {
  }

  /** Collapsing a single-spaced text changes nothing. */
  lemma {:induction false} CollapseKeeps(e: string)
    requires SingleSpaced(e)
    ensures Collapse(e) == e
    decreases |e|
  {
    if e != [] {
      var w := TakeWord(e);
      if |w| == |e| {
        assert Words(e) == [w] by {
          WordsFront(e);
          assert e[|w|..] == [];
        }
      } else {
        SingleSpacedRest(e, w);
        var rest := e[|w| + 1..];
        WordsAfterFirst(e, w);
        CollapseKeeps(rest);
        WordsNonEmpty(rest, 0);
        JoinSpaceFront(w, Words(rest));
        SplitAtSpace(e, |w|);
      }
    }
  }

  /** A word splits into itself. */
  lemma {:induction false} TakeWordAll(w: string)
    requires forall i :: 0 <= i < |w| ==> !IsSpace(w[i])
    ensures TakeWord(w) == w
    decreases |w|
  {
    if w != [] {
      TakeWordAll(w[1..]);
      assert [w[0]] + w[1..] == w;
    }
  }

  /** Splitting words joined by single spaces gives the words back. */
  lemma {:induction false} WordsOfJoin(ws: seq<string>)
    requires forall k :: 0 <= k < |ws| ==> IsWord(ws[k])
    ensures Words(JoinSpace(ws)) == ws
    decreases |ws|
  {
    if |ws| > 0 {
      var w := ws[0];
      TakeWordAll(w);
      assert Words(w) == [w] by {
        assert w[|w|..] == [];
      }
      if |ws| > 1 {
        WordsOfJoin(ws[1..]);
        WordsAroundSpace(w, JoinSpace(ws[1..]));
        assert [w] + ws[1..] == ws;
      }
    }
  }

  /** `' '.join(s.split())` keeps the words of `s`, in order. */
  lemma CollapseWords(s: string)
    ensures Words(Collapse(s)) == Words(s)
  {
    WordsOfJoin(Words(s));
  }

  /** Collapsing `a + " " + b` collapses each side and joins them with one space, when both
      sides hold a word. */
  lemma CollapseAroundSpace(a: string, b: string)
    requires |Words(a)| > 0 && |Words(b)| > 0
    ensures Collapse(a + " " + b) == Collapse(a) + " " + Collapse(b)
  {
    WordsAroundSpace(a, b);
    JoinSpaceAppend(Words(a), Words(b));
  }

  /** The end of the run of digits that starts at `i`. */
  function SkipDigits(s: string, i: nat): (e: nat)
    requires i <= |s|
    ensures i <= e <= |s| && (e == |s| || !IsDigit(s[e]))
    ensures forall k :: i <= k < e ==> IsDigit(s[k])
    decreases |s| - i
  {
    if i < |s| && IsDigit(s[i]) then SkipDigits(s, i + 1) else i
  }

  /** Python's `str(n)` for a natural number. */
  function NatToString(n: nat): (r: string)
    ensures |r| > 0 && forall i :: 0 <= i < |r| ==> IsDigit(r[i])
  {
    if n < 10 then ["0123456789"[n]] else NatToString(n / 10) + ["0123456789"[n % 10]]
  }

  /** The value of one decimal digit. */
  function DigitValue(c: char): (d: nat)
    requires IsDigit(c)
    ensures d < 10
  {
    c as int - '0' as int
  }

  /** `int(g)` for a string of decimal digits (the empty string counting as 0). */
  function DigitsValue(g: string): nat
    requires forall k :: 0 <= k < |g| ==> IsDigit(g[k])
  {
    if g == [] then 0 else 10 * DigitsValue(g[..|g| - 1]) + DigitValue(g[|g| - 1])
  }

  /** `int(str(n)) == n`. */
  lemma {:induction false} DigitsValueOfNatToString(n: nat)
    ensures DigitsValue(NatToString(n)) == n
  {
    var r := NatToString(n);
    if n < 10 {
      assert r == ["0123456789"[n]];
      assert r[..0] == [];
    } else {
      var front := NatToString(n / 10);
      assert r[..|r| - 1] == front;
      DigitsValueOfNatToString(n / 10);
    }
  }

  /** Python's `str(n)` for an integer. */
  function IntToString(n: int): string {
    if n < 0 then "-" + NatToString(-n) else NatToString(n)
  }

  /** `''.join(ss)`. */
  function Concat(ss: seq<string>): string {
    if ss == [] then "" else ss[0] + Concat(ss[1..])
  }

  lemma {:induction false} ConcatAppend(ss: seq<string>, s: string)
    ensures Concat(ss + [s]) == Concat(ss) + s
    decreases |ss|
  {
    if ss == [] {
      assert [] + [s] == [s];
      assert s + "" == s;
    } else {
      assert (ss + [s])[1..] == ss[1..] + [s];
      ConcatAppend(ss[1..], s);
    }
  }

  /** `sep.join(ss)`. */
  function Join(sep: string, ss: seq<string>): string {
    if ss == [] then "" else if |ss| == 1 then ss[0] else Join(sep, ss[..|ss| - 1]) + sep + ss[|ss| - 1]
  }

  /** A text contains every piece it is built around. */
  lemma ContainsMiddle(a: string, sub: string, b: string)
    ensures Contains(a + sub + b, sub)
  {
    var s := a + sub + b;
    assert s[|a|..|a| + |sub|] == sub;
    assert OccursAt(s, sub, |a|);
    ContainsAt(s, sub);
  }

  /** Regrouping a concatenation, stated once so that proofs need not rediscover it. */
  lemma AppendAssoc<T>(a: seq<T>, b: seq<T>, c: seq<T>)
    ensures a + b + c == a + (b + c)
  {
  }

  lemma ContainsSelf(s: string)
    ensures Contains(s, s)
  {
    assert s[..|s|] == s;
  }

  /** A text containing `sub` still contains it with more text in front. */
  lemma ContainsLeft(a: string, s: string, sub: string)
    requires Contains(s, sub)
    ensures Contains(a + s, sub)
  {
    ContainsAt(s, sub);
    var i :| OccursAt(s, sub, i);
    var t := a + s;
    assert t[|a| + i..|a| + i + |sub|] == s[i..i + |sub|];
    assert OccursAt(t, sub, |a| + i);
    ContainsAt(t, sub);
  }

  /** A text containing `sub` still contains it with more text behind. */
  lemma ContainsRight(s: string, b: string, sub: string)
    requires Contains(s, sub)
    ensures Contains(s + b, sub)
  {
    ContainsAt(s, sub);
    var i :| OccursAt(s, sub, i);
    var t := s + b;
    assert t[i..i + |sub|] == s[i..i + |sub|];
    assert OccursAt(t, sub, i);
    ContainsAt(t, sub);
  }

  /** `c * n`: `n` copies of one character. */
  function Repeat(c: char, n: nat): (r: string)
    ensures |r| == n && forall i :: 0 <= i < n ==> r[i] == c
  {
    if n == 0 then "" else [c] + Repeat(c, n - 1)
  }

  /** `t[:n] + '...' if len(t) > n else t`: a title cut to `n` characters, marked with an
      ellipsis exactly when something was cut. */
  function Truncate(t: string, n: nat): (r: string)
    ensures |t| <= n ==> r == t
    ensures |t| > n ==> |r| == n + 3 && r[..n] == t[..n] && r[n..] == "..."
  {
    if |t| > n then t[..n] + "..." else t
  }
}
