/**
 * The certifications section (src/components/sections/Certifications.tsx):
 * certifications grouped by category with a `reduce` that fills a dictionary
 * in place, the category pills derived from the dictionary's keys, the list
 * drawn for the selected pill, and the counts shown on the pills and in the
 * stats.
 */
module Certifications {
  import opened Types
  import opened Sequences
  import Constants

  /** The pseudo-category that selects every certification. */
  const ALL := "All"

  /** The group of a certification whose category is empty. */
  const OTHER := "Other"

  /** `cert.category || 'Other'`: an empty category is falsy and falls back to "Other". */
  function CategoryKey(c: Certification): (k: string)
    ensures k != ""
    ensures c.category != "" ==> k == c.category
    ensures c.category == "" ==> k == OTHER
  {
    if c.category == "" then OTHER else c.category
  }

  /** The certifications of one group, in list order: the reference for what `push` builds. */
  function GroupOf(certs: seq<Certification>, k: string): (g: seq<Certification>)
    ensures |g| <= |certs|
    ensures forall c :: c in g <==> c in certs && CategoryKey(c) == k
  {
    if certs == [] then []
    else if CategoryKey(certs[0]) == k then [certs[0]] + GroupOf(certs[1..], k)
    else GroupOf(certs[1..], k)
  }

  /**
   * The group keys in the order the dictionary acquires them: a key is added
   * when the first certification of its category is met.
   */
  function KeysOf(certs: seq<Certification>): (ks: seq<string>)
    ensures AllDistinct(ks)
    ensures forall k :: k in ks <==> exists c :: c in certs && CategoryKey(c) == k
    decreases |certs|
  {
    if certs == [] then []
    else
      var init := certs[..|certs| - 1];
      var k := CategoryKey(certs[|certs| - 1]);
      assert certs == init + [certs[|certs| - 1]];
      if k in KeysOf(init) then KeysOf(init) else KeysOf(init) + [k]
  }

  /**
   * The dictionary `groupedCertifications` as the fold the `reduce` performs:
   * the dictionary of all but the last certification, with the last one
   * appended to its group (created empty if missing).
   */
  function Grouped(certs: seq<Certification>): (groups: map<string, seq<Certification>>)
    ensures forall k :: k in groups ==> groups[k] != []
    decreases |certs|
  {
    if certs == [] then map[]
    else
      var groups := Grouped(certs[..|certs| - 1]);
      var last := certs[|certs| - 1];
      var k := CategoryKey(last);
      groups[k := (if k in groups then groups[k] else []) + [last]]
  }

  /**
   * The `reduce` of lines 12-17: walk the certifications once, create an empty
   * group the first time a category is met, and append each certification to
   * its group. `keys` records the insertion order that `Object.keys` reports.
   */
  method GroupCertifications(certs: seq<Certification>)
    returns (groups: map<string, seq<Certification>>, keys: seq<string>)
    ensures groups == Grouped(certs)
    ensures keys == KeysOf(certs)
  {
    groups, keys := map[], [];
    for i := 0 to |certs|
      invariant groups == Grouped(certs[..i])
      invariant keys == KeysOf(certs[..i])
    {
      var cert := certs[i];
      var category := CategoryKey(cert);
      ghost var before := groups;
      GroupedHasKey(certs[..i], category);
      if category !in groups {
        groups := groups[category := []];
        keys := keys + [category];
      }
      groups := groups[category := groups[category] + [cert]];
      UpdateTwice(before, category, [], [cert]);
      GroupedStep(certs, i);
      KeysStep(certs, i, KeysOf(certs[..i]), category);
    }
    assert certs[..|certs|] == certs;
  }

  /** The dictionary has an entry for a key iff the key occurs. */
  lemma GroupedHasKey(certs: seq<Certification>, k: string)
    ensures k in Grouped(certs) <==> k in KeysOf(certs)
  {
    GroupedIsGroupOf(certs);
  }

  /** The fold on one more certification of the list. */
  lemma GroupedStep(certs: seq<Certification>, i: nat)
    requires i < |certs|
    ensures var g, k := Grouped(certs[..i]), CategoryKey(certs[i]);
            Grouped(certs[..i + 1]) == g[k := (if k in g then g[k] else []) + [certs[i]]]
  {
    assert certs[..i + 1][..i] == certs[..i];
  }

  /** Creating an entry and then overwriting it leaves only the second value. */
  lemma UpdateTwice<K, V>(m: map<K, V>, k: K, a: V, b: V)
    ensures m[k := a][k := b] == m[k := b]
  {
  }

  /** Appending a certification to the list appends it to its own group only. */
  lemma {:induction false} GroupOfSnoc(certs: seq<Certification>, c: Certification, k: string)
    ensures GroupOf(certs + [c], k) == GroupOf(certs, k) + (if CategoryKey(c) == k then [c] else [])
  {
    var tail := if CategoryKey(c) == k then [c] else [];
    if certs == [] {
      assert [c][1..] == [];
      assert GroupOf([c], k) == tail + GroupOf([], k);
    } else {
      var s := certs + [c];
      assert s[0] == certs[0] && s[1..] == certs[1..] + [c];
      GroupOfSnoc(certs[1..], c, k);
      var head := if CategoryKey(certs[0]) == k then [certs[0]] else [];
      assert GroupOf(s, k) == head + GroupOf(s[1..], k);
      assert GroupOf(certs, k) == head + GroupOf(certs[1..], k);
    }
  }

  /** A string that is no group key has an empty group. */
  lemma NoKeyNoGroup(certs: seq<Certification>, k: string)
    requires k !in KeysOf(certs)
    ensures GroupOf(certs, k) == []
  {
  }

  /** A new key is appended when the first certification of its category is met. */
  lemma KeysOfSnoc(certs: seq<Certification>, c: Certification)
    ensures KeysOf(certs + [c])
            == if CategoryKey(c) in KeysOf(certs) then KeysOf(certs) else KeysOf(certs) + [CategoryKey(c)]
  {
    var s := certs + [c];
    assert s[..|s| - 1] == certs;
  }

  /**
   * What the dictionary holds: one entry per key of `KeysOf`, and under each
   * key exactly the certifications of that category, in list order.
   */
  lemma {:induction false} GroupedIsGroupOf(certs: seq<Certification>)
    ensures forall k :: k in Grouped(certs) <==> k in KeysOf(certs)
    ensures forall k :: k in Grouped(certs) ==> Grouped(certs)[k] == GroupOf(certs, k)
    decreases |certs|
  {
    if certs != [] {
      var init, last := certs[..|certs| - 1], certs[|certs| - 1];
      assert certs == init + [last];
      GroupedIsGroupOf(init);
      KeysOfSnoc(init, last);
      var k := CategoryKey(last);
      if k !in KeysOf(init) {
        NoKeyNoGroup(init, k);
      }
      forall k' | k' in Grouped(certs)
        ensures Grouped(certs)[k'] == GroupOf(certs, k')
      {
        GroupOfSnoc(init, last, k');
      }
    }
  }

  /** Every certification lands in exactly one group: the one keyed by its category. */
  lemma GroupsPartition(certs: seq<Certification>, c: Certification)
    requires c in certs
    ensures CategoryKey(c) in Grouped(certs)
    ensures c in Grouped(certs)[CategoryKey(c)]
    ensures forall k :: k in Grouped(certs) && c in Grouped(certs)[k] ==> k == CategoryKey(c)
  {
    GroupedIsGroupOf(certs);
  }

  /** `push` appends, so each group keeps the list order of its members. */
  lemma {:induction false} GroupKeepsOrder(certs: seq<Certification>, k: string)
    ensures IsSubsequence(GroupOf(certs, k), certs)
  {
    if certs != [] {
      GroupKeepsOrder(certs[1..], k);
      var g := GroupOf(certs, k);
      if CategoryKey(certs[0]) == k {
        assert g[0] == certs[0] && g[1..] == GroupOf(certs[1..], k);
      }
    }
  }

  /** A group holds each member as often as the list does, and nothing else. */
  lemma {:induction false} GroupMultiplicity(certs: seq<Certification>, k: string, c: Certification)
    ensures multiset(GroupOf(certs, k))[c] == if CategoryKey(c) == k then multiset(certs)[c] else 0
  {
    if certs != [] {
      GroupMultiplicity(certs[1..], k, c);
      assert certs == [certs[0]] + certs[1..];
    }
  }

  /**
   * Keys come in first-appearance order: wherever a later key occurs in the
   * list, an earlier key has already occurred before it.
   */
  ghost predicate InFirstAppearanceOrder(certs: seq<Certification>, ks: seq<string>) {
    forall i, j, n :: 0 <= i < j < |ks| && 0 <= n < |certs| && CategoryKey(certs[n]) == ks[j] ==>
      exists m :: 0 <= m < n && CategoryKey(certs[m]) == ks[i]
  }

  lemma {:induction false} KeysInFirstAppearanceOrder(certs: seq<Certification>)
    ensures InFirstAppearanceOrder(certs, KeysOf(certs))
    decreases |certs|
  {
    if certs != [] {
      var init := certs[..|certs| - 1];
      var last := certs[|certs| - 1];
      KeysInFirstAppearanceOrder(init);
      var ks, ks' := KeysOf(init), KeysOf(certs);
      forall i, j, n | 0 <= i < j < |ks'| && 0 <= n < |certs| && CategoryKey(certs[n]) == ks'[j]
        ensures exists m :: 0 <= m < n && CategoryKey(certs[m]) == ks'[i]
      {
        assert ks'[i] == ks[i];
        if n < |certs| - 1 {
          assert certs[n] == init[n] && init[n] in init;
          assert j < |ks|;
          var m :| 0 <= m < n && CategoryKey(init[m]) == ks[i];
          assert certs[m] == init[m];
        } else {
          assert ks[i] in ks;
          var c' :| c' in init && CategoryKey(c') == ks[i];
          var m :| 0 <= m < |init| && init[m] == c';
          assert certs[m] == init[m];
        }
      }
    }
  }

  /** `categories`: the "All" pill followed by one pill per group key. */
  function Categories(certs: seq<Certification>): (pills: seq<string>)
    ensures |pills| > 0 && pills[0] == ALL
    ensures forall p :: p in pills <==> p == ALL || exists c :: c in certs && CategoryKey(c) == p
  {
    [ALL] + KeysOf(certs)
  }

  /** The pills are distinct (they are React keys) as long as no category is literally "All". */
  lemma CategoriesDistinct(certs: seq<Certification>)
    requires forall c :: c in certs ==> CategoryKey(c) != ALL
    ensures AllDistinct(Categories(certs))
    ensures |Categories(certs)| == 1 + |KeysOf(certs)|
  {
    var cs := Categories(certs);
    forall i, j | 0 <= i < j < |cs|
      ensures cs[i] != cs[j]
    {
      if i == 0 {
        assert cs[j] in KeysOf(certs);
      } else {
        assert cs[i] == KeysOf(certs)[i - 1] && cs[j] == KeysOf(certs)[j - 1];
      }
    }
  }

  /** `filteredCertifications`: everything for "All", else the selected group or nothing. */
  function Selected(selected: string, certs: seq<Certification>): (shown: seq<Certification>)
    ensures selected == ALL ==> shown == certs
    ensures selected != ALL ==> forall c :: c in shown <==> c in certs && CategoryKey(c) == selected
  {
    GroupedIsGroupOf(certs);
    if selected == ALL then certs
    else
      var groups := Grouped(certs);
      if selected in groups then groups[selected] else []
  }

  /** Selection "All" is the whole list; any other selection is exactly its group (empty if unknown). */
  lemma SelectionIsGroup(selected: string, certs: seq<Certification>)
    ensures selected == ALL ==> Selected(selected, certs) == certs
    ensures selected != ALL ==> Selected(selected, certs) == GroupOf(certs, selected)
    ensures selected != ALL && selected !in KeysOf(certs) ==> Selected(selected, certs) == []
  {
    GroupedIsGroupOf(certs);
    if selected != ALL && selected !in KeysOf(certs) {
      NoKeyNoGroup(certs, selected);
    }
  }

  /** `groupedCertifications[category]?.length || 0`: the size of the category's group, 0 if it has none. */
  function PillCount(category: string, certs: seq<Certification>): (n: nat)
    ensures n == |GroupOf(certs, category)|
  {
    GroupedIsGroupOf(certs);
    var groups := Grouped(certs);
    if category in groups then |groups[category]|
    else NoKeyNoGroup(certs, category); 0
  }

  /**
   * The number drawn on a pill: none on a pill reading "All" (the guard
   * `category !== 'All'`), else the pill count.
   */
  function PillNumber(category: string, certs: seq<Certification>): (n: Option<nat>)
    ensures n.None? <==> category == ALL
    ensures n.Some? ==> n.value == |GroupOf(certs, category)|
  {
    if category == ALL then None else Some(PillCount(category, certs))
  }

  /** The numbers drawn on the pills of the given categories, added up. */
  function PillTotal(ks: seq<string>, certs: seq<Certification>): nat {
    if ks == [] then 0
    else
      var n := PillNumber(ks[|ks| - 1], certs);
      PillTotal(ks[..|ks| - 1], certs) + (if n.Some? then n.value else 0)
  }

  /** Sizes of the groups of the given keys, added up. */
  function GroupSizes(ks: seq<string>, certs: seq<Certification>): nat {
    if ks == [] then 0 else GroupSizes(ks[..|ks| - 1], certs) + |GroupOf(certs, ks[|ks| - 1])|
  }

  /** One more pill adds its drawn number, nothing for an "All" pill. */
  lemma PillTotalSnoc(ks: seq<string>, k: string, certs: seq<Certification>)
    ensures PillTotal(ks + [k], certs) == PillTotal(ks, certs) + (if k == ALL then 0 else |GroupOf(certs, k)|)
    ensures GroupSizes(ks + [k], certs) == GroupSizes(ks, certs) + |GroupOf(certs, k)|
  {
    assert (ks + [k])[..|ks|] == ks;
  }

  /**
   * The drawn numbers add up to the group sizes, less the size of the "All"
   * group once for every "All" pill, since those pills draw no number.
   */
  lemma {:induction false} PillTotalIsGroupSizes(ks: seq<string>, certs: seq<Certification>)
    ensures PillTotal(ks, certs) + multiset(ks)[ALL] * |GroupOf(certs, ALL)| == GroupSizes(ks, certs)
  {
    if ks != [] {
      var init, k := ks[..|ks| - 1], ks[|ks| - 1];
      assert ks == init + [k];
      PillTotalIsGroupSizes(init, certs);
      PillTotalSnoc(init, k, certs);
      var m := multiset(init)[ALL];
      assert multiset(ks) == multiset(init) + multiset{k};
      assert multiset(ks)[ALL] == if k == ALL then m + 1 else m;
      ProductStep(m, |GroupOf(certs, ALL)|);
    }
  }

  lemma ProductStep(m: nat, g: nat)
    ensures (m + 1) * g == m * g + g
  {
  }

  /** Putting a key in front adds the size of its group. */
  lemma {:induction false} GroupSizesCons(k: string, ks: seq<string>, certs: seq<Certification>)
    ensures GroupSizes([k] + ks, certs) == |GroupOf(certs, k)| + GroupSizes(ks, certs)
  {
    if ks != [] {
      var init := ks[..|ks| - 1];
      GroupSizesCons(k, init, certs);
      assert ([k] + ks)[..|ks|] == [k] + init;
    }
  }

  /** One more certification adds one to the group sizes of any distinct key list holding its key. */
  lemma {:induction false} GroupSizesSnoc(ks: seq<string>, certs: seq<Certification>, c: Certification)
    requires AllDistinct(ks)
    ensures GroupSizes(ks, certs + [c]) == GroupSizes(ks, certs) + (if CategoryKey(c) in ks then 1 else 0)
  {
    if ks != [] {
      var init, k := ks[..|ks| - 1], ks[|ks| - 1];
      assert ks == init + [k];
      assert AllDistinct(init);
      GroupSizesSnoc(init, certs, c);
      GroupOfSnoc(certs, c, k);
      assert k !in init;
    }
  }

  /** The groups together hold exactly the certifications of the list. */
  lemma {:induction false} GroupSizesCoverList(certs: seq<Certification>)
    ensures GroupSizes(KeysOf(certs), certs) == |certs|
    decreases |certs|
  {
    if certs != [] {
      var init, c := certs[..|certs| - 1], certs[|certs| - 1];
      assert certs == init + [c];
      GroupSizesCoverList(init);
      GroupSizesSnoc(KeysOf(init), init, c);
      var k := CategoryKey(c);
      if k !in KeysOf(init) {
        var ks := KeysOf(init) + [k];
        assert ks[..|ks| - 1] == KeysOf(init);
        NoKeyNoGroup(init, k);
        GroupOfSnoc(init, c, k);
      }
    }
  }

  /**
   * The numbers drawn on the pills add up to the "Total Certifications" stat,
   * `CERTIFICATIONS.length`, less the certifications whose category is
   * literally "All": their pill reads "All" and draws no number.
   */
  lemma PillsAddUpToTotal(certs: seq<Certification>)
    ensures PillTotal(Categories(certs), certs) == |certs| - |GroupOf(certs, ALL)|
    ensures (forall c :: c in certs ==> CategoryKey(c) != ALL) ==> PillTotal(Categories(certs), certs) == |certs|
  {
    var ks := KeysOf(certs);
    var g := |GroupOf(certs, ALL)|;
    PillTotalIsGroupSizes([ALL] + ks, certs);
    GroupSizesCons(ALL, ks, certs);
    GroupSizesCoverList(certs);
    DistinctOccurrences(ks, ALL);
    assert multiset([ALL] + ks)[ALL] == 1 + multiset(ks)[ALL];
    if ALL in ks {
      assert 2 * g == g + g;
    } else {
      NoKeyNoGroup(certs, ALL);
    }
  }

  /**
   * A certification whose category is literally "All" gives a second "All"
   * pill; neither pill draws a number, so the drawn numbers add up to 0
   * while the "Total Certifications" stat reads 1.
   */
  lemma AllCategoryPillExample(c: Certification)
    requires c.category == ALL
    ensures Categories([c]) == [ALL, ALL]
    ensures PillTotal(Categories([c]), [c]) == 0
  {
    KeysOfSnoc([], c);
    assert [] + [c] == [c];
    PillsAddUpToTotal([c]);
    assert GroupOf([c], ALL) == [c];
  }

  /** The "Categories" stat, `Object.keys(groupedCertifications).length`. */
  function CategoryStat(certs: seq<Certification>): (n: nat)
    ensures n == |KeysOf(certs)|
  {
    GroupedIsGroupOf(certs);
    DistinctCardinality(KeysOf(certs));
    assert Grouped(certs).Keys == set k | k in KeysOf(certs);
    |Grouped(certs)|
  }

  /** The "Categories" stat counts the distinct group keys of the list. */
  lemma CategoryStatCountsKeys(certs: seq<Certification>)
    ensures CategoryStat(certs) == |set c | c in certs :: CategoryKey(c)|
  {
    var ks := KeysOf(certs);
    DistinctCardinality(ks);
    assert (set k | k in ks) == (set c | c in certs :: CategoryKey(c));
  }

  /** The category key of each certification, in list order. */
  function KeySequence(certs: seq<Certification>): seq<string> {
    Map(certs, CategoryKey)
  }

  /** The group keys depend only on the sequence of category keys. */
  lemma {:induction false} KeysOfFollowsKeySequence(a: seq<Certification>, b: seq<Certification>)
    requires KeySequence(a) == KeySequence(b)
    ensures KeysOf(a) == KeysOf(b)
    decreases |a|
  {
    if a != [] {
      var n := |a| - 1;
      forall i | 0 <= i < n
        ensures KeySequence(a[..n])[i] == KeySequence(b[..n])[i]
      {
        assert KeySequence(a[..n])[i] == KeySequence(a)[i];
        assert KeySequence(b[..n])[i] == KeySequence(b)[i];
      }
      KeysOfFollowsKeySequence(a[..|a| - 1], b[..|b| - 1]);
      assert CategoryKey(a[|a| - 1]) == KeySequence(a)[|a| - 1];
    }
  }

  /** How many certifications a group holds is how often its key occurs in the key sequence. */
  lemma {:induction false} GroupSizeIsOccurrences(certs: seq<Certification>, k: string)
    ensures |GroupOf(certs, k)| == multiset(KeySequence(certs))[k]
  {
    if certs != [] {
      GroupSizeIsOccurrences(certs[1..], k);
      assert KeySequence(certs) == [CategoryKey(certs[0])] + KeySequence(certs[1..]);
    }
  }

  /** The group keys of any list whose category keys are those of the site's certifications. */
  lemma KeysOfSiteShape(certs: seq<Certification>)
    requires |certs| == 5
    requires CategoryKey(certs[0]) == "Networking" && CategoryKey(certs[1]) == "Networking"
    requires CategoryKey(certs[2]) == "Security" && CategoryKey(certs[3]) == "Development"
    requires CategoryKey(certs[4]) == "Marketing"
    ensures KeysOf(certs) == ["Networking", "Security", "Development", "Marketing"]
  {
    KeysOfSitePrefix(certs);
    var before := ["Networking", "Security"];
    assert "Development" !in before;
    KeysStep(certs, 3, before, "Development");
    var before' := before + ["Development"];
    assert "Marketing" !in before';
    KeysStep(certs, 4, before', "Marketing");
    assert certs[..5] == certs;
  }

  lemma KeysOfSitePrefix(certs: seq<Certification>)
    requires |certs| == 5
    requires CategoryKey(certs[0]) == "Networking" && CategoryKey(certs[1]) == "Networking"
    requires CategoryKey(certs[2]) == "Security" && CategoryKey(certs[3]) == "Development"
    requires CategoryKey(certs[4]) == "Marketing"
    ensures KeysOf(certs[..3]) == ["Networking", "Security"]
  {
    assert certs[..0] == [];
    KeysStep(certs, 0, [], "Networking");
    KeysStep(certs, 1, ["Networking"], "Networking");
    KeysStep(certs, 2, ["Networking"], "Security");
  }

  /** Two certifications of such a list are in the Networking group. */
  lemma NetworkingOfSiteShape(certs: seq<Certification>)
    requires |certs| == 5
    requires CategoryKey(certs[0]) == "Networking" && CategoryKey(certs[1]) == "Networking"
    requires CategoryKey(certs[2]) == "Security" && CategoryKey(certs[3]) == "Development"
    requires CategoryKey(certs[4]) == "Marketing"
    ensures |GroupOf(certs, "Networking")| == 2
  {
    GroupSizeIsOccurrences(certs, "Networking");
    assert KeySequence(certs) == ["Networking", "Networking", "Security", "Development", "Marketing"];
  }

  lemma KeysStep(certs: seq<Certification>, i: nat, before: seq<string>, k: string)
    requires i < |certs| && KeysOf(certs[..i]) == before && CategoryKey(certs[i]) == k
    ensures KeysOf(certs[..i + 1]) == if k in before then before else before + [k]
  {
    assert certs[..i + 1] == certs[..i] + [certs[i]];
    KeysOfSnoc(certs[..i], certs[i]);
  }

  /** The category keys of the site's certifications, in list order. */
  lemma SiteKeySequence()
    ensures |Constants.CERTIFICATIONS| == 5
    ensures CategoryKey(Constants.CERTIFICATIONS[0]) == "Networking"
    ensures CategoryKey(Constants.CERTIFICATIONS[1]) == "Networking"
    ensures CategoryKey(Constants.CERTIFICATIONS[2]) == "Security"
    ensures CategoryKey(Constants.CERTIFICATIONS[3]) == "Development"
    ensures CategoryKey(Constants.CERTIFICATIONS[4]) == "Marketing"
  {
  }

  /** On the site's data: four groups, in this order, and two Networking certifications. */
  lemma SiteGroups()
    ensures KeysOf(Constants.CERTIFICATIONS) == ["Networking", "Security", "Development", "Marketing"]
    ensures Categories(Constants.CERTIFICATIONS) == ["All", "Networking", "Security", "Development", "Marketing"]
    ensures CategoryStat(Constants.CERTIFICATIONS) == 4
    ensures |GroupOf(Constants.CERTIFICATIONS, "Networking")| == 2
  {
    SiteKeySequence();
    KeysOfSiteShape(Constants.CERTIFICATIONS);
    CategoryStatCountsKeys(Constants.CERTIFICATIONS);
    NetworkingOfSiteShape(Constants.CERTIFICATIONS);
  }
}
