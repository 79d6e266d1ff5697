/** Relabelling of the instances that share one project path.  Phase one
    builds the dictionary from each property string to the members that
    declare it; phase two appends every property that fewer than all members
    declare to each of its declarers.  Labels are rebuilt from scratch. */
module Disambiguation {
  import opened Projects

  /** The dictionary of phase one: the property strings in the order first
      seen, and for each of them the indices of the members that declared it,
      one entry per declaration. */
  datatype PropertyIndex = PropertyIndex(keys: seq<string>, owners: map<string, seq<int>>)

  /** How often `prop` is declared across the group, counting a member once
      for each time it lists the string. */
  function Occurrences(group: seq<Project>, prop: string): nat
    decreases |group|
  {
    if |group| == 0 then 0
    else Occurrences(group[..|group| - 1], prop) + multiset(group[|group| - 1].globalProperties)[prop]
  }

  /** Every member of the group declares `prop`. */
  predicate SharedByAll(group: seq<Project>, prop: string)
  {
    forall j :: 0 <= j < |group| ==> prop in group[j].globalProperties
  }

  /** The label member `i` should carry: those of its own properties that
      not every member declares. */
  function Distinguishing(group: seq<Project>, i: int): set<string>
    requires 0 <= i < |group|
  {
    set p | p in group[i].globalProperties && !SharedByAll(group, p)
  }

  /** No member lists a property string twice (they come from dictionary
      keys; see `Projects.FormatProperties`). */
  predicate DistinctProperties(group: seq<Project>)
  {
    forall j :: 0 <= j < |group| ==> Distinct(group[j].globalProperties)
  }

  /** The key order lists exactly the dictionary's keys. */
  predicate KeysListed(ix: PropertyIndex)
  {
    && (forall p :: p in ix.keys ==> p in ix.owners)
    && (forall p :: p in ix.owners ==> p in ix.keys)
  }

  /** Every recorded declarer is a member index below `n`. */
  predicate OwnersBelow(owners: map<string, seq<int>>, n: int)
  {
    forall p, j :: p in owners && j in owners[p] ==> 0 <= j < n
  }

  /** A member is recorded under a string exactly when it declares it. */
  ghost predicate OwnersDeclare(ix: PropertyIndex, group: seq<Project>)
  {
    && (forall p, j {:trigger j in ix.owners[p]} :: p in ix.owners && j in ix.owners[p] ==>
          0 <= j < |group| && p in group[j].globalProperties)
    && (forall p, j {:trigger p in group[j].globalProperties} ::
          0 <= j < |group| && p in group[j].globalProperties ==>
          p in ix.owners && j in ix.owners[p])
  }

  /** Each string's declarer list is as long as its occurrence count. */
  ghost predicate OwnersCounted(ix: PropertyIndex, group: seq<Project>)
  {
    forall p :: p in ix.owners ==> |ix.owners[p]| == Occurrences(group, p)
  }

  /** `ix` is the phase-one dictionary of `group`. */
  ghost predicate Indexes(ix: PropertyIndex, group: seq<Project>)
  {
    KeysListed(ix) && OwnersDeclare(ix, group) && OwnersCounted(ix, group)
  }

  /** One `AddOrUpdate` call: records member `j` as a declarer of `p`,
      adding `p` at the end of the key order when it is unseen. */
  function AddDeclaration(ix: PropertyIndex, j: int, p: string): (r: PropertyIndex)
    ensures KeysListed(ix) ==> KeysListed(r)
    ensures forall q {:trigger q in r.owners} :: q in r.owners <==> q in ix.owners || q == p
    ensures forall q, k {:trigger k in r.owners[q]} :: q in r.owners ==>
      (k in r.owners[q] <==> (q in ix.owners && k in ix.owners[q]) || (k == j && q == p))
    ensures forall q {:trigger r.owners[q]} :: q in r.owners ==>
      |r.owners[q]| == (if q in ix.owners then |ix.owners[q]| else 0) + (if q == p then 1 else 0)
    ensures KeysListed(ix) && Distinct(ix.keys) ==> Distinct(r.keys)
    ensures forall q {:trigger r.owners[q]} :: q in r.owners && q != p ==> r.owners[q] == ix.owners[q]
    ensures r.owners[p] == (if p in ix.owners then ix.owners[p] else []) + [j]
  {
    if p in ix.owners then PropertyIndex(ix.keys, ix.owners[p := ix.owners[p] + [j]])
    else PropertyIndex(ix.keys + [p], ix.owners[p := [j]])
  }

  /** No declarer list names a member twice. */
  predicate OwnersDistinct(owners: map<string, seq<int>>)
  {
    forall p :: p in owners ==> Distinct(owners[p])
  }

  /** Member `j` is not yet recorded under any of `props`. */
  predicate Unrecorded(ix: PropertyIndex, j: int, props: seq<string>)
  {
    forall q :: q in props && q in ix.owners ==> j !in ix.owners[q]
  }

  /** The inner loop of phase one: records member `j` as a declarer of each
      string in `props`. */
  function AddMember(ix: PropertyIndex, j: int, props: seq<string>): (r: PropertyIndex)
    ensures KeysListed(ix) ==> KeysListed(r)
    ensures forall p {:trigger p in r.owners} :: p in r.owners <==> p in ix.owners || p in props
    ensures forall p, k {:trigger k in r.owners[p]} :: p in r.owners ==>
      (k in r.owners[p] <==> (p in ix.owners && k in ix.owners[p]) || (k == j && p in props))
    ensures forall p {:trigger r.owners[p]} :: p in r.owners ==>
      |r.owners[p]| == (if p in ix.owners then |ix.owners[p]| else 0) + multiset(props)[p]
    ensures forall p {:trigger r.owners[p]} :: p in ix.owners && p !in props ==> r.owners[p] == ix.owners[p]
    ensures KeysListed(ix) && Distinct(ix.keys) ==> Distinct(r.keys)
    decreases |props|
  {
    if |props| == 0 then ix
    else
      var r := AddMember(AddDeclaration(ix, j, props[0]), j, props[1..]);
      assert props == [props[0]] + props[1..];
      assert forall p :: multiset(props)[p] == (if p == props[0] then 1 else 0) + multiset(props[1..])[p];
      r
  }

  /** Recording a duplicate-free property list for a member not yet recorded
      keeps every declarer list duplicate-free. */
  lemma {:induction false} AddMemberOwnersDistinct(ix: PropertyIndex, j: int, props: seq<string>)
    requires OwnersDistinct(ix.owners) && Distinct(props) && Unrecorded(ix, j, props)
    ensures OwnersDistinct(AddMember(ix, j, props).owners)
    decreases |props|
  {
    if |props| > 0 {
      var next := AddDeclaration(ix, j, props[0]);
      assert Distinct(next.owners[props[0]]);
      forall q | q in props[1..] && q in next.owners
        ensures j !in next.owners[q]
      {
        assert q != props[0];
      }
      AddMemberOwnersDistinct(next, j, props[1..]);
    }
  }

  /** Phase one over the whole group, members in order.  Its key order lists
      exactly the dictionary's keys, and every declarer it records is a member
      of the group. */
  function BuildIndex(group: seq<Project>): (ix: PropertyIndex)
    ensures KeysListed(ix)
    ensures OwnersBelow(ix.owners, |group|)
    decreases |group|
  {
    if |group| == 0 then PropertyIndex([], map[])
    else
      var n := |group| - 1;
      AddMember(BuildIndex(group[..n]), n, group[n].globalProperties)
  }

  /** Phase one builds the dictionary of the group: exactly the declared
      strings, each with its declarers, one entry per declaration. */
  lemma {:induction false} BuildIndexIndexes(group: seq<Project>)
    ensures Indexes(BuildIndex(group), group)
    decreases |group|
  {
    if |group| > 0 {
      var n := |group| - 1;
      BuildIndexIndexes(group[..n]);
      AddMemberIndexes(BuildIndex(group[..n]), group);
    }
  }

  /** The key order lists each string once, and no declarer list names a
      member twice when no member repeats a property. */
  lemma BuildIndexDistinct(group: seq<Project>)
    ensures Distinct(BuildIndex(group).keys)
    ensures DistinctProperties(group) ==> OwnersDistinct(BuildIndex(group).owners)
  {
    BuildIndexKeysDistinct(group);
    if DistinctProperties(group) {
      BuildIndexOwnersDistinct(group);
    }
  }

  /** The key order of phase one lists each string once. */
  lemma {:induction false} BuildIndexKeysDistinct(group: seq<Project>)
    ensures Distinct(BuildIndex(group).keys)
    decreases |group|
  {
    if |group| > 0 {
      BuildIndexKeysDistinct(group[..|group| - 1]);
    }
  }

  /** When no member repeats a property, no declarer list names a member
      twice. */
  lemma {:induction false} BuildIndexOwnersDistinct(group: seq<Project>)
    requires DistinctProperties(group)
    ensures OwnersDistinct(BuildIndex(group).owners)
    decreases |group|
  {
    if |group| > 0 {
      var n := |group| - 1;
      DistinctPropertiesPrefix(group);
      BuildIndexOwnersDistinct(group[..n]);
      BuildIndexIndexes(group[..n]);
      AddLastOwnersDistinct(BuildIndex(group[..n]), group);
    }
  }

  /** Dropping the last member keeps every property list duplicate-free. */
  lemma DistinctPropertiesPrefix(group: seq<Project>)
    requires |group| > 0 && DistinctProperties(group)
    ensures DistinctProperties(group[..|group| - 1])
    ensures Distinct(group[|group| - 1].globalProperties)
  {
    assert forall j :: 0 <= j < |group| - 1 ==> group[..|group| - 1][j] == group[j];
  }

  /** Recording the last member in a duplicate-free dictionary of the others
      keeps it duplicate-free. */
  lemma AddLastOwnersDistinct(ix: PropertyIndex, group: seq<Project>)
    requires |group| > 0 && Distinct(group[|group| - 1].globalProperties)
    requires OwnersDistinct(ix.owners) && OwnersDeclare(ix, group[..|group| - 1])
    ensures OwnersDistinct(AddMember(ix, |group| - 1, group[|group| - 1].globalProperties).owners)
  {
    var n := |group| - 1;
    var props := group[n].globalProperties;
    forall q | q in props && q in ix.owners
      ensures n !in ix.owners[q]
    {
      assert forall j {:trigger j in ix.owners[q]} :: j in ix.owners[q] ==> j < n;
    }
    AddMemberOwnersDistinct(ix, n, props);
  }

  /** Adding the last member to the dictionary of the other members gives the
      dictionary of the whole group. */
  lemma AddMemberIndexes(ix: PropertyIndex, group: seq<Project>)
    requires |group| > 0
    requires Indexes(ix, group[..|group| - 1])
    ensures Indexes(AddMember(ix, |group| - 1, group[|group| - 1].globalProperties), group)
  {
    var n := |group| - 1;
    AddMemberDeclare(ix, group);
    AddMemberCounted(ix, group);
  }

  lemma AddMemberDeclare(ix: PropertyIndex, group: seq<Project>)
    requires |group| > 0
    requires OwnersDeclare(ix, group[..|group| - 1])
    ensures OwnersDeclare(AddMember(ix, |group| - 1, group[|group| - 1].globalProperties), group)
  {
    var n := |group| - 1;
    var prefix := group[..n];
    var r := AddMember(ix, n, group[n].globalProperties);
    forall p, j | p in r.owners && j in r.owners[p]
      ensures 0 <= j < |group| && p in group[j].globalProperties
    {
      if p in ix.owners && j in ix.owners[p] {
        assert prefix[j] == group[j];
      }
    }
    forall p, j | 0 <= j < |group| && p in group[j].globalProperties
      ensures p in r.owners && j in r.owners[p]
    {
      if j < n {
        assert prefix[j] == group[j];
      }
    }
    assert OwnersDeclare(r, group);
  }

  lemma AddMemberCounted(ix: PropertyIndex, group: seq<Project>)
    requires |group| > 0
    requires OwnersDeclare(ix, group[..|group| - 1])
    requires OwnersCounted(ix, group[..|group| - 1])
    ensures OwnersCounted(AddMember(ix, |group| - 1, group[|group| - 1].globalProperties), group)
  {
    var n := |group| - 1;
    var prefix := group[..n];
    var r := AddMember(ix, n, group[n].globalProperties);
    forall p | p in r.owners
      ensures |r.owners[p]| == Occurrences(group, p)
    {
      assert Occurrences(group, p) == Occurrences(prefix, p) + multiset(group[n].globalProperties)[p];
      if p !in ix.owners {
        OccurrencesAbsent(prefix, p);
      }
    }
  }

  /** A string no member declares occurs nowhere. */
  lemma {:induction false} OccurrencesAbsent(group: seq<Project>, p: string)
    requires forall j :: 0 <= j < |group| ==> p !in group[j].globalProperties
    ensures Occurrences(group, p) == 0
    decreases |group|
  {
    if |group| > 0 {
      var n := |group| - 1;
      var prefix := group[..n];
      assert forall j :: 0 <= j < n ==> prefix[j] == group[j];
      OccurrencesAbsent(prefix, p);
    }
  }

  /** Every member with its disambiguations cleared. */
  function Cleared(group: seq<Project>): (r: seq<Project>)
    ensures |r| == |group|
    ensures forall i :: 0 <= i < |r| ==>
      r[i].globalProperties == group[i].globalProperties && r[i].disambiguations == []
  {
    seq(|group|, i requires 0 <= i < |group| => group[i].(disambiguations := []))
  }

  /** The inner loop of phase two: appends `prop` to the disambiguations of
      each member listed in `owners`. */
  function Label(members: seq<Project>, owners: seq<int>, prop: string): (r: seq<Project>)
    requires forall k :: 0 <= k < |owners| ==> 0 <= owners[k] < |members|
    ensures |r| == |members|
    ensures forall i :: 0 <= i < |r| ==> r[i].globalProperties == members[i].globalProperties
    ensures forall i :: 0 <= i < |r| ==>
      Elems(r[i].disambiguations)
        == Elems(members[i].disambiguations) + (if i in owners then {prop} else {})
    decreases |owners|
  {
    if |owners| == 0 then members
    else
      var i := owners[0];
      var m := members[i := members[i].(disambiguations := members[i].disambiguations + [prop])];
      assert Elems(m[i].disambiguations) == Elems(members[i].disambiguations) + {prop};
      assert forall k :: 0 <= k < |owners| ==> owners[k] == i || owners[k] in owners[1..];
      Label(m, owners[1..], prop)
  }

  /** With a duplicate-free owner list, each listed member gets `prop`
      appended exactly once. */
  lemma {:induction false} LabelExact(members: seq<Project>, owners: seq<int>, prop: string)
    requires forall k :: 0 <= k < |owners| ==> 0 <= owners[k] < |members|
    requires Distinct(owners)
    ensures forall i :: 0 <= i < |members| ==>
      Label(members, owners, prop)[i].disambiguations
        == members[i].disambiguations + (if i in owners then [prop] else [])
    decreases |owners|
  {
    if |owners| > 0 {
      var i := owners[0];
      var m := members[i := members[i].(disambiguations := members[i].disambiguations + [prop])];
      assert forall k :: 0 <= k < |owners| ==> owners[k] == i || owners[k] in owners[1..];
      assert i !in owners[1..];
      LabelExact(m, owners[1..], prop);
    }
  }

  /** Every member's label is duplicate-free and shares nothing with `keys`. */
  predicate FreshLabels(members: seq<Project>, keys: seq<string>)
  {
    forall i :: 0 <= i < |members| ==>
      Distinct(members[i].disambiguations) && forall x :: x in members[i].disambiguations ==> x !in keys
  }

  /** Phase two: every key whose declarer count differs from `total` is
      appended to each of its declarers, keys taken in order. */
  function LabelAll(members: seq<Project>, keys: seq<string>, owners: map<string, seq<int>>, total: int)
    : (r: seq<Project>)
    requires forall p :: p in keys ==> p in owners
    requires OwnersBelow(owners, |members|)
    ensures |r| == |members|
    ensures forall i :: 0 <= i < |r| ==> r[i].globalProperties == members[i].globalProperties
    ensures forall i :: 0 <= i < |r| ==>
      Elems(r[i].disambiguations)
        == Elems(members[i].disambiguations)
           + (set p | p in keys && |owners[p]| != total && i in owners[p])
    decreases |keys|
  {
    if |keys| == 0 then members
    else
      var p := keys[0];
      assert forall k :: 0 <= k < |owners[p]| ==> owners[p][k] in owners[p];
      var m := if |owners[p]| != total then Label(members, owners[p], p) else members;
      assert forall q :: q in keys <==> q == p || q in keys[1..];
      LabelAll(m, keys[1..], owners, total)
  }

  /** Appending a new element keeps a sequence duplicate-free. */
  lemma DistinctSnoc(s: seq<string>, x: string)
    requires Distinct(s) && x !in s
    ensures Distinct(s + [x])
  {
  }

  /** One step of phase two keeps the labels duplicate-free and clear of
      the keys still to come. */
  lemma LabelStepFresh(members: seq<Project>, keys: seq<string>, owners: seq<int>)
    requires |keys| > 0
    requires forall k :: 0 <= k < |owners| ==> 0 <= owners[k] < |members|
    requires Distinct(keys) && Distinct(owners) && FreshLabels(members, keys)
    ensures FreshLabels(Label(members, owners, keys[0]), keys[1..])
  {
    var p := keys[0];
    var m := Label(members, owners, p);
    LabelExact(members, owners, p);
    assert p !in keys[1..];
    forall i | 0 <= i < |m|
      ensures Distinct(m[i].disambiguations)
      ensures forall x :: x in m[i].disambiguations ==> x !in keys[1..]
    {
      var d := members[i].disambiguations;
      assert p !in d;
      if i in owners {
        assert m[i].disambiguations == d + [p];
        DistinctSnoc(d, p);
      } else {
        assert m[i].disambiguations == d;
      }
    }
  }

  /** Skipping a key keeps the labels clear of the keys still to come. */
  lemma SkipStepFresh(members: seq<Project>, keys: seq<string>)
    requires |keys| > 0
    requires FreshLabels(members, keys)
    ensures FreshLabels(members, keys[1..])
  {
    assert forall x :: x in keys[1..] ==> x in keys;
  }

  /** Phase two lists each distinguishing property at most once per member. */
  lemma {:induction false} LabelAllDistinct(members: seq<Project>, keys: seq<string>, owners: map<string, seq<int>>, total: int)
    requires forall p :: p in keys ==> p in owners
    requires OwnersBelow(owners, |members|)
    requires Distinct(keys) && OwnersDistinct(owners) && FreshLabels(members, keys)
    ensures forall i :: 0 <= i < |members| ==> Distinct(LabelAll(members, keys, owners, total)[i].disambiguations)
    decreases |keys|
  {
    if |keys| > 0 {
      var p := keys[0];
      assert forall k :: 0 <= k < |owners[p]| ==> owners[p][k] in owners[p];
      var m := if |owners[p]| != total then Label(members, owners[p], p) else members;
      if |owners[p]| != total {
        LabelStepFresh(members, keys, owners[p]);
      } else {
        SkipStepFresh(members, keys);
      }
      assert Distinct(keys[1..]);
      LabelAllDistinct(m, keys[1..], owners, total);
    }
  }

  /** `Disambiguate(list)`: clears every member's disambiguations and
      rebuilds them from the group's property dictionary.  Only the members'
      labels change. */
  function Disambiguate(group: seq<Project>): (r: seq<Project>)
    ensures |r| == |group|
    ensures forall i :: 0 <= i < |r| ==> r[i].globalProperties == group[i].globalProperties
  {
    var ix := BuildIndex(group);
    LabelAll(Cleared(group), ix.keys, ix.owners, |group|)
  }

  /** No label lists a property twice. */
  lemma DisambiguateNoRepeats(group: seq<Project>)
    requires DistinctProperties(group)
    ensures forall i :: 0 <= i < |group| ==> Distinct(Disambiguate(group)[i].disambiguations)
  {
    var ix := BuildIndex(group);
    assert OwnersBelow(ix.owners, |group|);
    BuildIndexDistinct(group);
    LabelAllDistinct(Cleared(group), ix.keys, ix.owners, |group|);
  }

  /** With no repeated strings inside a member, a property is declared as
      often as there are members exactly when every member declares it. */
  lemma {:induction false} OccurrencesShared(group: seq<Project>, prop: string)
    requires DistinctProperties(group)
    ensures Occurrences(group, prop) <= |group|
    ensures Occurrences(group, prop) == |group| <==> SharedByAll(group, prop)
    decreases |group|
  {
    if |group| > 0 {
      var n := |group| - 1;
      var prefix := group[..n];
      assert forall j :: 0 <= j < n ==> prefix[j] == group[j];
      OccurrencesShared(prefix, prop);
      DistinctCount(group[n].globalProperties, prop);
    }
  }

  /** A string occurs at most once in a sequence without repetitions. */
  lemma {:induction false} DistinctCount(s: seq<string>, x: string)
    requires Distinct(s)
    ensures multiset(s)[x] == if x in s then 1 else 0
    decreases |s|
  {
    if |s| > 0 {
      assert s == [s[0]] + s[1..];
      DistinctCount(s[1..], x);
    }
  }

  /** The main property of `Disambiguate`: each member's label, as a set, is
      exactly its own properties that not every member declares. */
  lemma DisambiguateLabels(group: seq<Project>, i: int)
    requires DistinctProperties(group)
    requires 0 <= i < |group|
    ensures Elems(Disambiguate(group)[i].disambiguations) == Distinguishing(group, i)
  {
    var ix := BuildIndex(group);
    var labels := set p | p in ix.keys && |ix.owners[p]| != |group| && i in ix.owners[p];
    DisambiguateByIndex(group, i);
    BuildIndexIndexes(group);
    forall p | p in labels
      ensures p in Distinguishing(group, i)
    {
      OccurrencesShared(group, p);
    }
    forall p | p in Distinguishing(group, i)
      ensures p in labels
    {
      OccurrencesShared(group, p);
    }
  }

  /** A member's label set, read off the phase-one dictionary. */
  lemma DisambiguateByIndex(group: seq<Project>, i: int)
    requires 0 <= i < |group|
    ensures var ix := BuildIndex(group);
      Elems(Disambiguate(group)[i].disambiguations)
        == set p | p in ix.keys && |ix.owners[p]| != |group| && i in ix.owners[p]
  {
    var ix := BuildIndex(group);
    assert OwnersBelow(ix.owners, |group|);
  }

  /** The members' property lists agree position by position. */
  predicate SameProperties(g1: seq<Project>, g2: seq<Project>)
  {
    |g1| == |g2| && forall i :: 0 <= i < |g1| ==> g1[i].globalProperties == g2[i].globalProperties
  }

  /** The intended label reads nothing but the members' property lists. */
  lemma DistinguishingReadsProperties(g1: seq<Project>, g2: seq<Project>, i: int)
    requires SameProperties(g1, g2)
    requires 0 <= i < |g1|
    ensures Distinguishing(g1, i) == Distinguishing(g2, i)
  {
    forall p
      ensures SharedByAll(g1, p) <==> SharedByAll(g2, p)
    {
      assert forall j :: 0 <= j < |g1| ==> g1[j].globalProperties == g2[j].globalProperties;
    }
  }

  /** The dictionary reads nothing but the members' property lists. */
  lemma {:induction false} BuildIndexReadsProperties(g1: seq<Project>, g2: seq<Project>)
    requires SameProperties(g1, g2)
    ensures BuildIndex(g1) == BuildIndex(g2)
    decreases |g1|
  {
    if |g1| > 0 {
      var n := |g1| - 1;
      BuildIndexReadsProperties(g1[..n], g2[..n]);
      assert g1[n].globalProperties == g2[n].globalProperties;
    }
  }

  /** Old labels are cleared first: the result depends on the members'
      properties only, never on the disambiguations they carried before. */
  lemma DisambiguateIgnoresOldLabels(g1: seq<Project>, g2: seq<Project>)
    requires SameProperties(g1, g2)
    ensures Disambiguate(g1) == Disambiguate(g2)
  {
    BuildIndexReadsProperties(g1, g2);
    assert Cleared(g1) == Cleared(g2);
  }

  /** A member whose every property is declared by all members gets an
      empty label. */
  lemma SharedPropertiesGiveEmptyLabel(group: seq<Project>, i: int)
    requires DistinctProperties(group)
    requires 0 <= i < |group|
    requires forall p :: p in group[i].globalProperties ==> SharedByAll(group, p)
    ensures |Disambiguate(group)[i].disambiguations| == 0
  {
    DisambiguateLabels(group, i);
    NoElemsEmpty(Disambiguate(group)[i].disambiguations);
  }

  /** A lone member has nothing to be told apart from. */
  lemma SingletonUnlabelled(group: seq<Project>)
    requires |group| == 1
    ensures Distinguishing(group, 0) == {}
  {
    forall p | p in group[0].globalProperties
      ensures SharedByAll(group, p)
    {
    }
  }

  /** Of two members, a property the first declares and the second lacks
      appears in the first one's label, which is therefore not empty. */
  lemma DifferingMembersLabelled(group: seq<Project>, i: int, j: int, p: string)
    requires DistinctProperties(group)
    requires 0 <= i < |group| && 0 <= j < |group|
    requires p in group[i].globalProperties && p !in group[j].globalProperties
    ensures p in Disambiguate(group)[i].disambiguations
  {
    DisambiguateLabels(group, i);
    assert !SharedByAll(group, p);
    assert p in Elems(Disambiguate(group)[i].disambiguations);
  }

  /** Phase two treats two members alike when, for every key, both or
      neither are among its declarers: whatever the key order, their labels
      grow by the same entries in the same order. */
  lemma {:induction false} LabelAllSame(members: seq<Project>, keys: seq<string>, owners: map<string, seq<int>>,
                                        total: int, i: int, j: int)
    requires forall p :: p in keys ==> p in owners
    requires OwnersBelow(owners, |members|) && OwnersDistinct(owners)
    requires 0 <= i < |members| && 0 <= j < |members|
    requires members[i].disambiguations == members[j].disambiguations
    requires forall p :: p in keys ==> (i in owners[p] <==> j in owners[p])
    ensures LabelAll(members, keys, owners, total)[i].disambiguations
         == LabelAll(members, keys, owners, total)[j].disambiguations
    decreases |keys|
  {
    if |keys| > 0 {
      var p := keys[0];
      assert forall k :: 0 <= k < |owners[p]| ==> owners[p][k] in owners[p];
      var m := if |owners[p]| != total then Label(members, owners[p], p) else members;
      if |owners[p]| != total {
        LabelExact(members, owners[p], p);
      }
      assert forall q :: q in keys[1..] ==> q in keys;
      LabelAllSame(m, keys[1..], owners, total, i, j);
    }
  }

  /** Members declaring the same properties end up with the same label: the
      same set, and indeed the same list, so the dashboard shows the same
      text for both. */
  lemma SamePropertiesSameLabel(group: seq<Project>, i: int, j: int)
    requires DistinctProperties(group)
    requires 0 <= i < |group| && 0 <= j < |group|
    requires Elems(group[i].globalProperties) == Elems(group[j].globalProperties)
    ensures Elems(Disambiguate(group)[i].disambiguations)
         == Elems(Disambiguate(group)[j].disambiguations)
    ensures Disambiguate(group)[i].disambiguations == Disambiguate(group)[j].disambiguations
    ensures Disambiguate(group)[i].Disambiguator() == Disambiguate(group)[j].Disambiguator()
  {
    var ix := BuildIndex(group);
    BuildIndexIndexes(group);
    BuildIndexDistinct(group);
    assert forall p :: p in group[i].globalProperties <==> p in Elems(group[i].globalProperties);
    assert forall p :: p in group[j].globalProperties <==> p in Elems(group[j].globalProperties);
    assert forall p :: p in ix.keys ==> (i in ix.owners[p] <==> j in ix.owners[p]);
    LabelAllSame(Cleared(group), ix.keys, ix.owners, |group|, i, j);
  }

  /** The property lists the group's members carry, regardless of order or repetition. */
  function PropertyLists(group: seq<Project>): set<seq<string>>
  {
    set j | 0 <= j < |group| :: group[j].globalProperties
  }

  /** Whether every member declares a property depends only on which
      property lists occur in the group. */
  lemma SharedByAllLists(group: seq<Project>, p: string)
    ensures SharedByAll(group, p) <==> forall l :: l in PropertyLists(group) ==> p in l
  {
    if forall l :: l in PropertyLists(group) ==> p in l {
      forall j | 0 <= j < |group|
        ensures p in group[j].globalProperties
      {
        assert group[j].globalProperties in PropertyLists(group);
      }
    }
  }

  /** The order in which members arrived does not matter: two groups made of
      the same property lists give a member the same label set in both. */
  lemma ArrivalOrderIrrelevant(g1: seq<Project>, g2: seq<Project>, i1: int, i2: int)
    requires DistinctProperties(g1) && DistinctProperties(g2)
    requires PropertyLists(g1) == PropertyLists(g2)
    requires 0 <= i1 < |g1| && 0 <= i2 < |g2|
    requires g1[i1].globalProperties == g2[i2].globalProperties
    ensures Elems(Disambiguate(g1)[i1].disambiguations) == Elems(Disambiguate(g2)[i2].disambiguations)
  {
    DisambiguateLabels(g1, i1);
    DisambiguateLabels(g2, i2);
    forall p | p in g1[i1].globalProperties
      ensures SharedByAll(g1, p) <==> SharedByAll(g2, p)
    {
      SharedByAllLists(g1, p);
      SharedByAllLists(g2, p);
    }
    assert Distinguishing(g1, i1) == Distinguishing(g2, i2);
  }
}
