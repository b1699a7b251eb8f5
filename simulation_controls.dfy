/**
 * The slider panel of the mesh simulator: targets grouped by category, the
 * labels derived from catalog names, and the percentage shown per slider.
 */
module SimulationControls {
  import opened Wrappers
  import JsRecord
  import JsMath
  import Seqs
  import Text
  import MorphTargets

  // ---------------------------------------------------------------------
  // Grouping by category
  // ---------------------------------------------------------------------

  /** The filter selecting the items of one category. */
  function InCategory<T>(category: T -> string, c: string): T -> bool {
    x => category(x) == c
  }

  /** The categories of the items, in catalog order. */
  function Categories<T>(items: seq<T>, category: T -> string): (cs: seq<string>)
    ensures |cs| == |items|
    ensures forall i :: 0 <= i < |items| ==> cs[i] == category(items[i])
  {
    seq(|items|, i requires 0 <= i < |items| => category(items[i]))
  }

  /** The groups after the reduce has pushed each item onto its category's array. */
  function Grouped<T>(items: seq<T>, category: T -> string): JsRecord.Record<seq<T>>
    decreases |items|
  {
    if items == [] then []
    else
      var n := |items| - 1;
      var acc := Grouped(items[..n], category);
      var k := category(items[n]);
      JsRecord.Put(acc, k, JsRecord.GetOr(acc, k, []) + [items[n]])
  }

  /** The reduce: create the category's array when missing, then push the item. */
  method GroupByCategory<T>(items: seq<T>, category: T -> string) returns (groups: JsRecord.Record<seq<T>>)
    ensures groups == Grouped(items, category)
  {
    groups := [];
    for i := 0 to |items|
      invariant groups == Grouped(items[..i], category)
    {
      var k := category(items[i]);
      assert items[..i + 1][..i] == items[..i];
      ghost var expected := JsRecord.Put(groups, k, JsRecord.GetOr(groups, k, []) + [items[i]]);
      assert Grouped(items[..i + 1], category) == expected;
      if JsRecord.Get(groups, k).None? {
        ghost var before := groups;
        groups := JsRecord.Put(groups, k, []);
        JsRecord.GetPutSame(before, k, []);
        JsRecord.PutPut(before, k, [], [items[i]]);
        assert [] + [items[i]] == [items[i]];
      }
      groups := JsRecord.Put(groups, k, JsRecord.GetOr(groups, k, []) + [items[i]]);
    }
    assert items[..|items|] == items;
  }

  /** The groups are created in the order in which their categories first appear. */
  lemma {:induction false} GroupsInFirstAppearanceOrder<T>(items: seq<T>, category: T -> string)
    ensures JsRecord.Keys(Grouped(items, category)) == Seqs.FirstOccurrences(Categories(items, category))
    decreases |items|
  {
    if items != [] {
      var n := |items| - 1;
      GroupsInFirstAppearanceOrder(items[..n], category);
      assert Categories(items, category)[..n] == Categories(items[..n], category);
    }
  }

  /**
   * A category's group holds exactly the items of that category, in catalog
   * order; a category no item has has no group.
   */
  lemma {:induction false} GroupIsCategoryFilter<T>(items: seq<T>, category: T -> string, c: string)
    ensures GroupMatchesFilter(items, category, c)
    decreases |items|
  {
    if items != [] {
      var n := |items| - 1;
      GroupIsCategoryFilter(items[..n], category, c);
      if category(items[n]) == c {
        GroupStepSameCategory(items, category, c);
      } else {
        GroupStepOtherCategory(items, category, c);
      }
    }
  }

  /** The statement of `GroupIsCategoryFilter` for one category. */
  ghost predicate GroupMatchesFilter<T>(items: seq<T>, category: T -> string, c: string) {
    JsRecord.Get(Grouped(items, category), c)
      == if c in Categories(items, category) then Some(Seqs.Filter(items, InCategory(category, c))) else None
  }

  /** Pushing an item of category c extends c's group by that item. */
  lemma GroupStepSameCategory<T>(items: seq<T>, category: T -> string, c: string)
    requires items != [] && category(items[|items| - 1]) == c
    requires GroupMatchesFilter(items[..|items| - 1], category, c)
    ensures GroupMatchesFilter(items, category, c)
  {
    var n := |items| - 1;
    var prefix, last, p := items[..n], items[n], InCategory(category, c);
    var acc := Grouped(prefix, category);
    var group := JsRecord.GetOr(acc, c, []) + [last];
    assert Grouped(items, category) == JsRecord.Put(acc, c, group);
    JsRecord.GetPutSame(acc, c, group);
    CategoriesSnoc(items, category);
    assert c in Categories(items, category);
    Seqs.FilterSnoc(items, p);
    assert p(last);
    assert Seqs.Filter(items, p) == Seqs.Filter(prefix, p) + [last];
    if c in Categories(prefix, category) {
      assert JsRecord.GetOr(acc, c, []) == Seqs.Filter(prefix, p);
    } else {
      UnusedCategoryFiltersEmpty(prefix, category, c);
      assert JsRecord.GetOr(acc, c, []) == [];
    }
  }

  /** Pushing an item of another category leaves c's group as it was. */
  lemma GroupStepOtherCategory<T>(items: seq<T>, category: T -> string, c: string)
    requires items != [] && category(items[|items| - 1]) != c
    requires GroupMatchesFilter(items[..|items| - 1], category, c)
    ensures GroupMatchesFilter(items, category, c)
  {
    var n := |items| - 1;
    var prefix, last, p := items[..n], items[n], InCategory(category, c);
    var acc := Grouped(prefix, category);
    var k := category(last);
    var group := JsRecord.GetOr(acc, k, []) + [last];
    assert Grouped(items, category) == JsRecord.Put(acc, k, group);
    JsRecord.GetPutOther(acc, k, group, c);
    CategoriesSnoc(items, category);
    assert (c in Categories(items, category)) == (c in Categories(prefix, category));
    Seqs.FilterSnoc(items, p);
    assert !p(last);
    assert Seqs.Filter(items, p) == Seqs.Filter(prefix, p);
  }

  /** No item has a category that is not among the categories. */
  lemma UnusedCategoryFiltersEmpty<T>(items: seq<T>, category: T -> string, c: string)
    requires c !in Categories(items, category)
    ensures Seqs.Filter(items, InCategory(category, c)) == []
  {
    forall j | 0 <= j < |items| ensures !InCategory(category, c)(items[j]) {
      assert Categories(items, category)[j] == category(items[j]);
    }
    Seqs.FilterNone(items, InCategory(category, c));
  }

  lemma CategoriesSnoc<T>(items: seq<T>, category: T -> string)
    requires items != []
    ensures var n := |items| - 1;
      forall c :: c in Categories(items, category) <==> c in Categories(items[..n], category) || c == category(items[n])
  {
    var n := |items| - 1;
    assert Categories(items, category) == Categories(items[..n], category) + [category(items[n])];
  }

  /** Every item lies in the group of its own category and in no other. */
  lemma EachItemInItsOwnGroup<T>(items: seq<T>, category: T -> string, i: nat, c: string)
    requires i < |items|
    ensures var group := JsRecord.Get(Grouped(items, category), c);
      (category(items[i]) == c ==> group.Some? && items[i] in group.value)
      && (category(items[i]) != c && group.Some? ==> items[i] !in group.value)
  {
    GroupIsCategoryFilter(items, category, c);
    assert Categories(items, category)[i] == category(items[i]);
    assert GroupMatchesFilter(items, category, c);
  }

  /** `fillersByCategory` */
  method FillersByCategory() returns (groups: JsRecord.Record<seq<MorphTargets.MorphTarget>>)
    ensures groups == Grouped(MorphTargets.FillerMorphTargets, (t: MorphTargets.MorphTarget) => t.category)
  {
    groups := GroupByCategory(MorphTargets.FillerMorphTargets, (t: MorphTargets.MorphTarget) => t.category);
  }

  /** `botoxByCategory` */
  method BotoxByCategory() returns (groups: JsRecord.Record<seq<MorphTargets.BotoxZone>>)
    ensures groups == Grouped(MorphTargets.BotoxZones, (z: MorphTargets.BotoxZone) => z.category)
  {
    groups := GroupByCategory(MorphTargets.BotoxZones, (z: MorphTargets.BotoxZone) => z.category);
  }

  // ---------------------------------------------------------------------
  // Labels
  // ---------------------------------------------------------------------

  predicate IsUpper(c: char) { 'A' <= c <= 'Z' }

  /** `toUpperCase` on one character, for the ASCII letters. */
  function ToUpper(c: char): (u: char)
    ensures 'a' <= c <= 'z' ==> IsUpper(u)
    ensures !('a' <= c <= 'z') ==> u == c
  {
    if 'a' <= c <= 'z' then (c as int - 32) as char else c
  }

  /** `.replace(/_/g, " ")` */
  function UnderscoresToSpaces(s: string): (r: string)
    ensures |r| == |s|
    ensures forall i :: 0 <= i < |s| ==> r[i] == if s[i] == '_' then ' ' else s[i]
  {
    seq(|s|, i requires 0 <= i < |s| => if s[i] == '_' then ' ' else s[i])
  }

  /** `.replace(/([A-Z])/g, " $1")` */
  function SpaceBeforeCapitals(s: string): string {
    if s == [] then []
    else (if IsUpper(s[0]) then [' ', s[0]] else [s[0]]) + SpaceBeforeCapitals(s[1..])
  }

  /** `.split(" ")`: the pieces between spaces, empty pieces included. */
  function SplitOnSpaces(s: string): (parts: seq<string>)
    ensures |parts| >= 1
    ensures forall i :: 0 <= i < |parts| ==> ' ' !in parts[i]
  {
    if s == [] then [""]
    else
      var rest := SplitOnSpaces(s[1..]);
      if s[0] == ' ' then [""] + rest else [[s[0]] + rest[0]] + rest[1..]
  }

  /** `word.charAt(0).toUpperCase() + word.slice(1)` */
  function CapitalizeFirst(word: string): (r: string)
    ensures |r| == |word|
  {
    if word == [] then [] else [ToUpper(word[0])] + word[1..]
  }

  function CapitalizeAll(words: seq<string>): (r: seq<string>)
    ensures |r| == |words|
    ensures forall i :: 0 <= i < |words| ==> r[i] == CapitalizeFirst(words[i])
  {
    seq(|words|, i requires 0 <= i < |words| => CapitalizeFirst(words[i]))
  }

  /**
   * `formatLabel` is: underscores to spaces, a space before each capital,
   * leading whitespace dropped, then the first character and every character
   * after a space uppercased, all other characters kept as they are.
   */
  function FormatLabel(name: string): (formatted: string)
    ensures formatted == CapitalizeAfterSpaces(Text.TrimStart(SpaceBeforeCapitals(UnderscoresToSpaces(name))))
  {
    var t := Text.TrimStart(SpaceBeforeCapitals(UnderscoresToSpaces(name)));
    CapitalizeWordsJoined(SplitOnSpaces(t));
    JoinSplitOnSpaces(t);
    Text.Join(CapitalizeAll(SplitOnSpaces(t)), " ")
  }

  /** Reference definition: uppercase the first character and each character after a space. */
  function CapitalizeAfterSpaces(s: string): (r: string)
    ensures |r| == |s|
  {
    seq(|s|, i requires 0 <= i < |s| => if i == 0 || s[i - 1] == ' ' then ToUpper(s[i]) else s[i])
  }

  /** Splitting on spaces and joining with spaces gives the string back. */
  lemma {:induction false} JoinSplitOnSpaces(s: string)
    ensures Text.Join(SplitOnSpaces(s), " ") == s
    decreases |s|
  {
    if s != [] {
      var rest := SplitOnSpaces(s[1..]);
      JoinSplitOnSpaces(s[1..]);
      if s[0] == ' ' {
        assert s == " " + s[1..];
      } else if |rest| == 1 {
        assert s == [s[0]] + s[1..];
      } else {
        assert Text.Join(rest, " ") == rest[0] + " " + Text.Join(rest[1..], " ");
        assert s == [s[0]] + s[1..];
      }
    }
  }

  /** Capitalising after spaces works word by word across one space. */
  lemma CapitalizeAcrossSpace(a: string, b: string)
    ensures CapitalizeAfterSpaces(a + " " + b) == CapitalizeAfterSpaces(a) + " " + CapitalizeAfterSpaces(b)
  {
    var l, r := a + " " + b, CapitalizeAfterSpaces(a) + " " + CapitalizeAfterSpaces(b);
    forall i | 0 <= i < |l| ensures CapitalizeAfterSpaces(l)[i] == r[i] {
      if i < |a| {
        assert l[i] == a[i] && (i > 0 ==> l[i - 1] == a[i - 1]);
      } else if i > |a| {
        assert l[i] == b[i - |a| - 1] && (i > |a| + 1 ==> l[i - 1] == b[i - |a| - 2]);
      }
    }
  }

  /** In a word without spaces only the first character is capitalised. */
  lemma CapitalizeOneWord(w: string)
    requires ' ' !in w
    ensures CapitalizeAfterSpaces(w) == CapitalizeFirst(w)
  {
    if w != [] {
      forall j | 0 <= j < |w| ensures w[j] != ' ' {
        assert w[j] in w;
      }
    }
  }

  /** Capitalising each space-free word and joining equals capitalising after spaces in the joined string. */
  lemma {:induction false} CapitalizeWordsJoined(words: seq<string>)
    requires forall i :: 0 <= i < |words| ==> ' ' !in words[i]
    ensures Text.Join(CapitalizeAll(words), " ") == CapitalizeAfterSpaces(Text.Join(words, " "))
    decreases |words|
  {
    if |words| == 1 {
      CapitalizeOneWord(words[0]);
    } else if |words| > 1 {
      CapitalizeWordsJoined(words[1..]);
      CapitalizeOneWord(words[0]);
      CapitalizeAcrossSpace(words[0], Text.Join(words[1..], " "));
      assert CapitalizeAll(words)[1..] == CapitalizeAll(words[1..]);
    }
  }

  /** No underscore survives `formatLabel`. */
  lemma {:induction false} SpaceBeforeCapitalsAddsNoUnderscore(s: string)
    requires '_' !in s
    ensures '_' !in SpaceBeforeCapitals(s)
    decreases |s|
  {
    if s != [] {
      assert '_' !in s[1..] by { assert forall c :: c in s[1..] ==> c in s; }
      SpaceBeforeCapitalsAddsNoUnderscore(s[1..]);
    }
  }

  /** Capitalising changes lower-case letters only, so it adds no underscore. */
  lemma CapitalizeAddsNoUnderscore(s: string)
    requires '_' !in s
    ensures '_' !in CapitalizeAfterSpaces(s)
  {
    var r := CapitalizeAfterSpaces(s);
    forall i | 0 <= i < |r| ensures r[i] != '_' {
      assert s[i] in s;
    }
  }

  lemma FormatLabelHasNoUnderscore(name: string)
    ensures '_' !in FormatLabel(name)
  {
    var u := UnderscoresToSpaces(name);
    assert '_' !in u by {
      forall c | c in u ensures c != '_' {
        var i :| 0 <= i < |u| && u[i] == c;
      }
    }
    SpaceBeforeCapitalsAddsNoUnderscore(u);
    var spaced := SpaceBeforeCapitals(u);
    var t := Text.TrimStart(spaced);
    assert '_' !in t by {
      assert t == spaced[|spaced| - |t|..];
      forall c | c in t ensures c in spaced {
        var i :| 0 <= i < |t| && t[i] == c;
        assert spaced[|spaced| - |t| + i] == c;
      }
    }
    CapitalizeAddsNoUnderscore(t);
  }

  /** Every capital is preceded by the inserted space. */
  lemma {:induction false} CapitalsFollowASpace(s: string, i: nat)
    requires i < |SpaceBeforeCapitals(s)| && IsUpper(SpaceBeforeCapitals(s)[i])
    ensures i > 0 && SpaceBeforeCapitals(s)[i - 1] == ' '
    decreases |s|
  {
    var head := if IsUpper(s[0]) then [' ', s[0]] else [s[0]];
    assert SpaceBeforeCapitals(s) == head + SpaceBeforeCapitals(s[1..]);
    if i >= |head| {
      CapitalsFollowASpace(s[1..], i - |head|);
    }
  }

  /**
   * The label of a filler slider: the first occurrence of `category_` cut
   * out of its name, if there is one, and the rest formatted.
   */
  function FillerLabel(target: MorphTargets.MorphTarget): (shown: string)
    ensures var name, prefix := target.name, target.category + "_";
      && ((forall j :: 0 <= j <= |name| ==> !Text.OccursAt(name, prefix, j)) ==> shown == FormatLabel(name))
      && (forall i :: Text.FirstOccursAt(name, prefix, i) ==> shown == FormatLabel(name[..i] + name[i + |prefix|..]))
      && (prefix <= name ==> shown == FormatLabel(name[|prefix|..]))
    ensures '_' !in shown
  {
    var stripped := Text.RemoveFirst(target.name, target.category + "_");
    FormatLabelHasNoUnderscore(stripped);
    FormatLabel(stripped)
  }

  /** The label of a Botox slider: its whole name, formatted. */
  function BotoxLabel(zone: MorphTargets.BotoxZone): (shown: string)
    ensures '_' !in shown
  {
    FormatLabelHasNoUnderscore(zone.name);
    FormatLabel(zone.name)
  }

  /** `lips_upper_volume` under category "lips" loses its `lips_` prefix. */
  lemma UpperLipVolumeLabel()
    ensures FillerLabel(MorphTargets.FillerMorphTargets[0]) == "Upper Volume"
  {
    var t := MorphTargets.FillerMorphTargets[0];
    var name: string, prefix: string := "lips_upper_volume", "lips_";
    assert t.name == name && t.category + "_" == prefix;
    assert name == prefix + "upper_volume";
    assert name[|prefix|..] == "upper_volume";
    UpperVolumeFormatted();
  }

  lemma UpperVolumeFormatted()
    ensures FormatLabel("upper_volume") == "Upper Volume"
  {
    PlainWordsLabel("upper_volume", "upper volume", "Upper Volume");
  }

  /**
   * `cheeks_volume` under category "cheeksMidface" does not contain
   * `cheeksMidface_`, so it keeps its whole name.
   */
  lemma CheeksVolumeLabel()
    ensures FillerLabel(MorphTargets.FillerMorphTargets[5]) == "Cheeks Volume"
  {
    var t := MorphTargets.FillerMorphTargets[5];
    assert t.name == "cheeks_volume" && t.category == "cheeksMidface";
    assert |t.category + "_"| > |t.name|;
    CheeksVolumeFormatted();
  }

  lemma CheeksVolumeFormatted()
    ensures FormatLabel("cheeks_volume") == "Cheeks Volume"
  {
    PlainWordsLabel("cheeks_volume", "cheeks volume", "Cheeks Volume");
  }

  /**
   * formatLabel of a name without capitals that starts with a letter: the
   * underscores become spaces and each word's first letter is upper-cased.
   */
  lemma PlainWordsLabel(name: string, spaced: string, shown: string)
    requires spaced == UnderscoresToSpaces(name) && spaced != [] && 'a' <= spaced[0] <= 'z'
    requires forall i :: 0 <= i < |spaced| ==> !IsUpper(spaced[i])
    requires shown == CapitalizeAfterSpaces(spaced)
    ensures FormatLabel(name) == shown
  {
    NoCapitalsNoSpaces(spaced);
  }

  /** Without capitals, `replace(/([A-Z])/g, " $1")` changes nothing. */
  lemma {:induction false} NoCapitalsNoSpaces(s: string)
    requires forall i :: 0 <= i < |s| ==> !IsUpper(s[i])
    ensures SpaceBeforeCapitals(s) == s
    decreases |s|
  {
    if s != [] {
      NoCapitalsNoSpaces(s[1..]);
    }
  }

  // ---------------------------------------------------------------------
  // Slider values
  // ---------------------------------------------------------------------

  /** `(values[name] || 0)`: a missing or zero intensity reads as 0. */
  function ValueOrZero(values: map<string, real>, name: string): real {
    if name in values then values[name] else 0.0
  }

  /** The percentage shown beside a slider. */
  function DisplayedPercent(values: map<string, real>, name: string): (p: int)
    ensures name !in values ==> p == 0
    ensures ValueOrZero(values, name) * 100.0 - 0.5 < p as real <= ValueOrZero(values, name) * 100.0 + 0.5
  {
    JsMath.Round(ValueOrZero(values, name) * 100.0)
  }

  /** The intensity a slider position hands to the change handler. */
  function SliderToValue(position: int): real {
    position as real / 100.0
  }

  /** Moving a slider to a whole position shows that position back as the percentage. */
  lemma SliderPositionShownBack(values: map<string, real>, name: string, position: int)
    ensures DisplayedPercent(values[name := SliderToValue(position)], name) == position
  {
    assert SliderToValue(position) * 100.0 == position as real;
  }

  /** Slider positions 0..100 hand over intensities in 0..1. */
  lemma SliderRangeIsUnitRange(position: int)
    requires 0 <= position <= 100
    ensures 0.0 <= SliderToValue(position) <= 1.0
  {
  }
}
