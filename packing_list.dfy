/**
 * `generate_smart_packing_list`: the packing items for a trip description. Four base
 * items; the items of at most one trip length; the items of the first climate whose name
 * occurs in the description; the items of every activity that occurs in it; then
 * duplicates dropped, each item kept where it first appears (`dict.fromkeys`).
 */
module PackingList {
  import opened Text

  const BaseItems: seq<string> := ["travel backpack", "phone charger", "toiletry bag", "travel adapter"]

  const LongTripItems: seq<string> := ["laundry detergent pods", "extra underwear", "medication organizer"]

  const ShortTripItems: seq<string> := ["travel size toiletries", "compact packing cubes"]

  /** A table row: the items added when `keyword` occurs in the lowercased description. */
  datatype Rule = Rule(keyword: string, items: seq<string>)

  /** The climate table, in the order of the dictionary literal. None of its names
      contains '_', so `climate.replace('_', ' ')` is the name itself. */
  const Climates: seq<Rule> := [
    Rule("tropical", ["sunscreen SPF 50", "insect repellent", "lightweight clothing", "sandals", "sun hat"]),
    Rule("beach", ["swimsuit", "beach towel", "waterproof phone case", "flip flops", "beach bag"]),
    Rule("cold", ["thermal underwear", "winter jacket", "warm gloves", "beanie", "wool socks"]),
    Rule("mountain", ["hiking boots", "rain jacket", "first aid kit", "headlamp", "trekking poles"]),
    Rule("city", ["comfortable walking shoes", "day pack", "portable charger", "city guidebook"]),
    Rule("business", ["business attire", "laptop bag", "dress shoes", "iron travel size", "business cards"]),
    Rule("camping", ["sleeping bag", "camping tent", "camping stove", "water purification tablets", "multi-tool"])
  ]

  /** The activity table, in the order of the dictionary literal. */
  const Activities: seq<Rule> := [
    Rule("photography", ["camera equipment", "extra batteries", "memory cards", "lens cleaning kit"]),
    Rule("fitness", ["workout clothes", "running shoes", "fitness tracker", "protein bars"]),
    Rule("cooking", ["portable cooking set", "spices travel kit", "cooler bag", "cutting board"]),
    Rule("reading", ["e-reader", "reading light", "book stand", "blue light glasses"])
  ]

  predicate LongTrip(questionLower: string) {
    Contains(questionLower, "week") || Contains(questionLower, "7 day")
    || Contains(questionLower, "long trip")
  }

  predicate ShortTrip(questionLower: string) {
    Contains(questionLower, "weekend") || Contains(questionLower, "2 day")
    || Contains(questionLower, "3 day") || Contains(questionLower, "short trip")
  }

  /** The items of the trip length: the long-trip test comes first. */
  function DurationItems(questionLower: string): (r: seq<string>)
    ensures r == [] || r == LongTripItems || r == ShortTripItems
  {
    if LongTrip(questionLower) then LongTripItems
    else if ShortTrip(questionLower) then ShortTripItems
    else []
  }

  predicate Matches(questionLower: string, rule: Rule) {
    Contains(questionLower, rule.keyword)
  }

  /** The items of the first matching row, or none. */
  function FirstMatch(questionLower: string, rules: seq<Rule>): seq<string>
    decreases |rules|
  {
    if rules == [] then []
    else if Matches(questionLower, rules[0]) then rules[0].items
    else FirstMatch(questionLower, rules[1..])
  }

  /** The items of every matching row, in table order. */
  function AllMatches(questionLower: string, rules: seq<Rule>): seq<string>
    decreases |rules|
  {
    if rules == [] then []
    else
      var last := rules[|rules| - 1];
      AllMatches(questionLower, rules[..|rules| - 1])
      + (if Matches(questionLower, last) then last.items else [])
  }

  /** `s` without the items of `seen` and without repeats, each kept at its first
      position. */
  function Dedupe<T>(s: seq<T>, seen: set<T>): seq<T>
    decreases |s|
  {
    if s == [] then []
    else if s[0] in seen then Dedupe(s[1..], seen)
    else [s[0]] + Dedupe(s[1..], seen + {s[0]})
  }

  /** Every item of the list, before duplicates are dropped. */
  function AllItems(questionLower: string): seq<string> {
    BaseItems + DurationItems(questionLower)
    + FirstMatch(questionLower, Climates) + AllMatches(questionLower, Activities)
  }

  /** The packing list for a trip description. */
  function SmartPackingList(question: string): seq<string> {
    Dedupe(AllItems(Lower(question)), {})
  }

  method GenerateSmartPackingList(question: string) returns (items: seq<string>)
    ensures items == SmartPackingList(question)
  {
    var questionLower := Lower(question);
    var baseItems := BaseItems;
    var packingItems: seq<string> := [];
    if LongTrip(questionLower) {
      baseItems := baseItems + LongTripItems;
    } else if ShortTrip(questionLower) {
      baseItems := baseItems + ShortTripItems;
    }
    assert baseItems == BaseItems + DurationItems(questionLower);
    packingItems := FirstMatchOf(questionLower, Climates);
    packingItems := AppendMatches(questionLower, Activities, packingItems);
    AppendAssoc(baseItems, FirstMatch(questionLower, Climates), AllMatches(questionLower, Activities));
    items := DedupeOf(baseItems + packingItems);
  }

  /** The climate loop: the first matching row's items, then `break`. */
  method FirstMatchOf(questionLower: string, rules: seq<Rule>) returns (items: seq<string>)
    ensures items == FirstMatch(questionLower, rules)
  {
    items := [];
    var c := 0;
    while c < |rules|
      invariant 0 <= c <= |rules|
      invariant FirstMatch(questionLower, rules) == FirstMatch(questionLower, rules[c..])
    {
      assert rules[c..][1..] == rules[c + 1..];
      if Matches(questionLower, rules[c]) {
        items := items + rules[c].items;
        return;
      }
      c := c + 1;
    }
  }

  /** The activity loop: every matching row's items appended to `start`. */
  method AppendMatches(questionLower: string, rules: seq<Rule>, start: seq<string>)
    returns (items: seq<string>)
    ensures items == start + AllMatches(questionLower, rules)
  {
    items := start;
    for a := 0 to |rules|
      invariant items == start + AllMatches(questionLower, rules[..a])
    {
      assert rules[..a + 1][..a] == rules[..a];
      if Matches(questionLower, rules[a]) {
        items := items + rules[a].items;
      }
    }
    assert rules[..|rules|] == rules;
  }

  /** `list(dict.fromkeys(all))`: each item the first time it is met. */
  method DedupeOf(all: seq<string>) returns (items: seq<string>)
    ensures items == Dedupe(all, {})
  {
    items := [];
    var seen: set<string> := {};
    for i := 0 to |all|
      invariant Dedupe(all, {}) == items + Dedupe(all[i..], seen)
    {
      assert all[i..][1..] == all[i + 1..];
      if all[i] !in seen {
        items := items + [all[i]];
        seen := seen + {all[i]};
      }
    }
  }

  /** The first matching row decides: its items, when no earlier row matches; nothing
      when no row matches. */
  lemma {:induction false} FirstMatchFirst(questionLower: string, rules: seq<Rule>)
    ensures FirstMatch(questionLower, rules) == []
      || (exists j :: 0 <= j < |rules| && Matches(questionLower, rules[j])
            && (forall m :: 0 <= m < j ==> !Matches(questionLower, rules[m]))
            && FirstMatch(questionLower, rules) == rules[j].items)
    ensures (forall j :: 0 <= j < |rules| ==> !Matches(questionLower, rules[j]))
      ==> FirstMatch(questionLower, rules) == []
    ensures forall j ::
              0 <= j < |rules| && Matches(questionLower, rules[j])
              && (forall m :: 0 <= m < j ==> !Matches(questionLower, rules[m]))
              ==> FirstMatch(questionLower, rules) == rules[j].items
    decreases |rules|
  {
    if rules != [] {
      var rest := rules[1..];
      FirstMatchFirst(questionLower, rest);
      assert forall m :: 1 <= m < |rules| ==> rules[m] == rest[m - 1];
      if !Matches(questionLower, rules[0]) && FirstMatch(questionLower, rest) != [] {
        var j :| 0 <= j < |rest| && Matches(questionLower, rest[j])
          && (forall m :: 0 <= m < j ==> !Matches(questionLower, rest[m]))
          && FirstMatch(questionLower, rest) == rest[j].items;
        assert Matches(questionLower, rules[j + 1]);
      }
      forall j | 0 <= j < |rules| && Matches(questionLower, rules[j])
        && (forall m :: 0 <= m < j ==> !Matches(questionLower, rules[m]))
        ensures FirstMatch(questionLower, rules) == rules[j].items
      {
        if j > 0 {
          assert rest[j - 1] == rules[j];
          assert forall m :: 0 <= m < j - 1 ==> !Matches(questionLower, rest[m]) by {
            forall m | 0 <= m < j - 1 ensures !Matches(questionLower, rest[m]) {
              assert rest[m] == rules[m + 1];
            }
          }
        }
      }
    }
  }

  /** Every matching row contributes all its items, and nothing else is added. */
  lemma {:induction false} AllMatchesItems(questionLower: string, rules: seq<Rule>, x: string)
    ensures x in AllMatches(questionLower, rules) <==>
      exists j :: 0 <= j < |rules| && Matches(questionLower, rules[j]) && x in rules[j].items
    decreases |rules|
  {
    if rules != [] {
      var front := rules[..|rules| - 1];
      AllMatchesItems(questionLower, front, x);
      assert forall j :: 0 <= j < |front| ==> front[j] == rules[j];
    }
  }

  /** No item comes twice, and none is one of those already seen. */
  lemma {:induction false} DedupeDistinct<T>(s: seq<T>, seen: set<T>)
    ensures var r := Dedupe(s, seen);
      (forall i, j :: 0 <= i < j < |r| ==> r[i] != r[j])
      && forall x :: x in r <==> x in s && x !in seen
    decreases |s|
  {
    if s != [] {
      DedupeDistinct(s[1..], seen + {s[0]});
      DedupeDistinct(s[1..], seen);
      assert s == [s[0]] + s[1..];
    }
  }

  /** Later items never disturb the earlier ones: what `a` contributes comes first. */
  lemma {:induction false} DedupeAppend<T>(a: seq<T>, b: seq<T>, seen: set<T>)
    ensures Dedupe(a + b, seen) == Dedupe(a, seen) + Dedupe(b, seen + (set x | x in a))
    decreases |a|
  {
    if a == [] {
      assert a + b == b;
      assert seen + (set x | x in a) == seen;
    } else {
      assert (a + b)[1..] == a[1..] + b;
      assert (a + b)[0] == a[0];
      var rest := (set x | x in a[1..]);
      assert (set x | x in a) == {a[0]} + rest by {
        assert a == [a[0]] + a[1..];
      }
      if a[0] in seen {
        DedupeAppend(a[1..], b, seen);
        assert seen + rest == seen + (set x | x in a);
      } else {
        DedupeAppend(a[1..], b, seen + {a[0]});
        assert seen + {a[0]} + rest == seen + (set x | x in a);
      }
    }
  }

  /** A list without repeats and without seen items is kept as it is. */
  lemma {:induction false} DedupeKeeps<T>(s: seq<T>, seen: set<T>)
    requires forall i, j :: 0 <= i < j < |s| ==> s[i] != s[j]
    requires forall i :: 0 <= i < |s| ==> s[i] !in seen
    ensures Dedupe(s, seen) == s
    decreases |s|
  {
    if s != [] {
      var t := s[1..];
      assert forall i :: 0 <= i < |t| ==> t[i] == s[i + 1];
      DedupeKeeps(t, seen + {s[0]});
      assert [s[0]] + t == s;
    }
  }

  /** A list without repeats heads whatever deduplicating it followed by more gives. */
  lemma DedupePrefix<T>(a: seq<T>, b: seq<T>)
    requires forall i, j :: 0 <= i < j < |a| ==> a[i] != a[j]
    ensures |Dedupe(a + b, {})| >= |a| && Dedupe(a + b, {})[..|a|] == a
  {
    DedupeAppend(a, b, {});
    DedupeKeeps(a, {});
  }

  lemma BaseDistinct()
    ensures forall i, j :: 0 <= i < j < |BaseItems| ==> BaseItems[i] != BaseItems[j]
  {
    assert BaseItems[0][1] == 'r' && BaseItems[1][0] == 'p' && BaseItems[2][1] == 'o';
    assert BaseItems[0][7] == 'b' && BaseItems[3][7] == 'a';
  }

  /** The list starts with the four base items. */
  lemma SmartStartsWithBase(question: string)
    ensures |SmartPackingList(question)| >= 4
    ensures SmartPackingList(question)[..4] == BaseItems
  {
    var ql := Lower(question);
    var duration, climate, activity := DurationItems(ql), FirstMatch(ql, Climates), AllMatches(ql, Activities);
    AppendAssoc(BaseItems + duration, climate, activity);
    AppendAssoc(BaseItems, duration, climate + activity);
    var rest := duration + (climate + activity);
    BaseDistinct();
    DedupePrefix(BaseItems, rest);
  }

  /** No item comes twice, and the items are exactly those of the base, duration,
      climate and activity lists. */
  lemma SmartDistinct(question: string)
    ensures var r := SmartPackingList(question);
      (forall i, j :: 0 <= i < j < |r| ==> r[i] != r[j])
      && forall x :: x in r <==> x in AllItems(Lower(question))
  {
    DedupeDistinct(AllItems(Lower(question)), {});
  }

  /** Any description containing "weekend" takes the long-trip branch, since "week"
      occurs in it; the short-trip test never sees it. */
  lemma WeekendIsLong(questionLower: string)
    requires Contains(questionLower, "weekend")
    ensures DurationItems(questionLower) == LongTripItems
  {
    assert Contains("weekend", "week") by {
      assert "weekend"[..4] == "week";
    }
    ContainsTrans(questionLower, "weekend", "week");
  }

  /** At most one trip length: the short-trip items only when the long-trip test fails. */
  lemma OneDuration(questionLower: string)
    ensures DurationItems(questionLower) == LongTripItems <==> LongTrip(questionLower)
    ensures DurationItems(questionLower) == ShortTripItems
      <==> !LongTrip(questionLower) && ShortTrip(questionLower)
    ensures DurationItems(questionLower) == [] <==> !LongTrip(questionLower) && !ShortTrip(questionLower)
  {
    assert LongTripItems[0] != ShortTripItems[0];
  }

  /** Each item of every activity named in the description is on the list. */
  lemma SmartHasActivities(question: string, j: nat, x: string)
    requires j < |Activities| && Matches(Lower(question), Activities[j]) && x in Activities[j].items
    ensures x in SmartPackingList(question)
  {
    var ql := Lower(question);
    AllMatchesItems(ql, Activities, x);
    DedupeDistinct(AllItems(ql), {});
  }

  /** The climate items on the list are those of the first climate named. */
  lemma SmartFirstClimate(question: string, j: nat, x: string)
    requires j < |Climates| && Matches(Lower(question), Climates[j])
    requires forall m :: 0 <= m < j ==> !Matches(Lower(question), Climates[m])
    requires x in Climates[j].items
    ensures x in SmartPackingList(question)
  {
    var ql := Lower(question);
    FirstMatchFirst(ql, Climates);
    DedupeDistinct(AllItems(ql), {});
  }
}
