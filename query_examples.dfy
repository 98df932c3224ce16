/**
 * The worked example of the query normaliser, computed step by step: "I need hiking
 * boots" becomes "hiking outdoor gear hiking boots".
 */
module QueryOptimizerExample {
  import opened Basics
  import opened Text
  import opened QueryTables
  import opened QueryOptimizer

  lemma LowerStep()
    ensures Lower("I need hiking boots") == "i need hiking boots"
  {
    var s, t := "I need hiking boots", "i need hiking boots";
    forall i | 0 <= i < |s| ensures Lower(s)[i] == t[i] {
      if i > 0 {
        assert s[i] == t[i] && (s[i] == ' ' || 'a' <= s[i] <= 'z');
      }
    }
  }

  /** The letters of " hiking boots"; the filler words each use a letter outside them. */
  lemma Letters()
    ensures forall i :: 0 <= i < |" hiking boots"| ==> " hiking boots"[i] in " hikngbots"
    ensures forall i :: 0 <= i < |"hiking boots"| ==> "hiking boots"[i] in " hikngbots"
  {
  }

  /** Letters "hiking boots" lacks: each later filler and the hiking expansion has one. */
  predicate Outside(c: char) {
    c == 'a' || c == 'e' || c == 'f' || c == 'l' || c == 'u' || c == 'w'
  }

  lemma Absent(c: char)
    requires Outside(c)
    ensures c !in " hiking boots" && c !in "hiking boots"
  {
    Letters();
  }

  /** "i need" occurs once, at the front of the lowered query. */
  lemma RemoveStep()
    ensures RemoveAll("i need hiking boots", "i need") == " hiking boots"
  {
    var t, spaced := "i need hiking boots", " hiking boots";
    assert t[..6] == "i need" && t[6..] == spaced;
    Absent('e');
    MissingChar(spaced, "i need", 3);
    RemoveAbsent(spaced, "i need");
  }

  /** One leading space in front of a stripped text is all `strip()` removes. */
  lemma StripStep(s: string, h: string)
    requires |s| > 0 && s[0] == ' ' && s[1..] == h
    requires |h| > 0 && !IsSpace(h[0]) && !IsSpace(h[|h| - 1])
    ensures Strip(s) == h
  {
    StripKeeps(h);
  }

  /** Removing "i need" and stripping leaves "hiking boots". */
  lemma FirstFillerStep()
    ensures Defill("i need hiking boots", Fillers, 1) == "hiking boots"
  {
    RemoveStep();
    StripStep(" hiking boots", "hiking boots");
  }

  /** A pattern with a letter outside " hikngbots" leaves "hiking boots" as it is. */
  lemma KeepsStripped(h: string, p: string, c: nat)
    requires h == "hiking boots" && c < |p| && Outside(p[c])
    ensures Strip(RemoveAll(h, p)) == h
  {
    Absent(p[c]);
    MissingChar(h, p, c);
    RemoveAbsent(h, p);
    StripKeeps(h);
  }

  /** A filler with a letter outside " hikngbots" leaves "hiking boots" as it is. */
  lemma FillerStep(t: string, fillers: seq<string>, k: nat, c: nat)
    requires NonEmptyFillers(fillers)
    requires k < |fillers| && Defill(t, fillers, k) == "hiking boots"
    requires c < |fillers[k]| && Outside(fillers[k][c])
    ensures Defill(t, fillers, k + 1) == "hiking boots"
  {
    KeepsStripped(Defill(t, fillers, k), fillers[k], c);
  }

  /** A letter of each later filler that "hiking boots" does not contain. */
  lemma LaterFillerLetters()
    ensures |Fillers| == 7
    ensures |Fillers[1]| > 3 && Fillers[1][3] == 'a' && |Fillers[2]| > 0 && Fillers[2][0] == 'l'
    ensures |Fillers[3]| > 0 && Fillers[3][0] == 'f' && |Fillers[4]| > 1 && Fillers[4][1] == 'e'
    ensures |Fillers[5]| > 3 && Fillers[5][3] == 'w' && |Fillers[6]| > 1 && Fillers[6][1] == 'e'
  {
  }

  /** None of the six later fillers occurs in "hiking boots". */
  lemma LaterFillersStep(t: string, fillers: seq<string>)
    requires NonEmptyFillers(fillers)
    requires |fillers| == 7 && Defill(t, fillers, 1) == "hiking boots"
    requires |fillers[1]| > 3 && fillers[1][3] == 'a' && |fillers[2]| > 0 && fillers[2][0] == 'l'
    requires |fillers[3]| > 0 && fillers[3][0] == 'f' && |fillers[4]| > 1 && fillers[4][1] == 'e'
    requires |fillers[5]| > 3 && fillers[5][3] == 'w' && |fillers[6]| > 1 && fillers[6][1] == 'e'
    ensures Defill(t, fillers, |fillers|) == "hiking boots"
  {
    FillerStep(t, fillers, 1, 3);
    FillerStep(t, fillers, 2, 0);
    FillerStep(t, fillers, 3, 0);
    FillerStep(t, fillers, 4, 1);
    FillerStep(t, fillers, 5, 3);
    FillerStep(t, fillers, 6, 1);
  }

  lemma DefilledStep(s: string)
    requires s == "I need hiking boots"
    ensures Defilled(s) == "hiking boots"
  {
    LowerStep();
    FirstFillerStep();
    LaterFillerLetters();
    FillersNonEmpty();
    LaterFillersStep(Lower(s), Fillers);
  }

  lemma ExpansionStep(d: string)
    requires d == "hiking boots"
    ensures FirstExpansion(d, 0) == Some(0)
  {
    assert StartsWith(d, Improvements[0].0);
    Absent('u');
    MissingChar(d, Improvements[0].1, 8);
  }

  lemma CollapseStep(h: string)
    requires h == "hiking boots"
    ensures Collapse(h) == h
  {
    assert forall i :: 0 <= i < |h| ==> h[i] == ' ' || 'a' <= h[i] <= 'z';
    assert forall i :: 0 < i < |h| && h[i] == ' ' ==> h[i - 1] != ' ';
    PlainPhrase(h);
    CollapseKeeps(h);
  }

  /** The hiking entry is the first that applies; its expansion goes in front. */
  lemma ExpandedStep(d: string)
    requires d == "hiking boots"
    ensures Collapse(Expand(d)) == "hiking outdoor gear hiking boots"
  {
    ExpansionStep(d);
    ExpandShape(d);
    CollapseStep(d);
    var e := Improvements[0].1;
    assert e == "hiking outdoor gear";
    assert Collapse(Expand(d)) == e + " " + d;
    ExpandedText(e, d);
  }

  lemma ExpandedText(e: string, d: string)
    requires e == "hiking outdoor gear" && d == "hiking boots"
    ensures e + " " + d == "hiking outdoor gear hiking boots"
  {
  }

  /** "I need hiking boots" loses its filler and gains the hiking expansion. */
  lemma HikingBootsExample(query: string)
    requires query == "I need hiking boots"
    ensures Optimized(query) == "hiking outdoor gear hiking boots"
  {
    DefilledStep(query);
    ExpandedStep(Defilled(query));
  }
}
