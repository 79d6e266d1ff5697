/** The registry invariant: path groups are duplicate-free, disjoint and
    registered, and every member of every group carries exactly the label
    that `Disambiguate` gives it with respect to its current siblings. */
module Invariant {
  import opened Projects
  import opened Disambiguation
  import opened Logger

  /** Each member of the group `ids` is registered, and its disambiguations
      are, without repetition, its distinguishing properties within the group. */
  ghost predicate Labelled(byId: map<int, Project>, ids: seq<int>)
  {
    && (forall k :: 0 <= k < |ids| ==> ids[k] in byId)
    && (forall k :: 0 <= k < |ids| ==>
          Elems(byId[ids[k]].disambiguations) == Distinguishing(Members(byId, ids), k))
    && (forall k :: 0 <= k < |ids| ==> Distinct(byId[ids[k]].disambiguations))
  }

  /** No instance belongs to two groups. */
  ghost predicate GroupsDisjoint(byPath: map<string, seq<int>>)
  {
    forall p1, p2, id {:trigger id in byPath[p1], id in byPath[p2]} ::
      p1 in byPath && p2 in byPath && id in byPath[p1] && id in byPath[p2] ==> p1 == p2
  }

  /** Every registered instance belongs to a path group. */
  ghost predicate AllGrouped(s: State)
  {
    forall id :: id in s.projectsById ==>
      exists path :: path in s.projectsByPath && id in s.projectsByPath[path]
  }

  /** What every reachable state satisfies, given well-formed events. */
  ghost predicate Valid(s: State)
  {
    && GroupsRegistered(s)
    && AllGrouped(s)
    && (forall path :: path in s.projectsByPath ==> Distinct(s.projectsByPath[path]))
    && GroupsDisjoint(s.projectsByPath)
    && (forall id :: id in s.projectsById ==> Distinct(s.projectsById[id].globalProperties))
    && (forall path :: path in s.projectsByPath ==> Labelled(s.projectsById, s.projectsByPath[path]))
  }

  /** A project-started event as the build engine produces it: property
      names are distinct and contain no '='. */
  predicate WellFormedProperties(properties: seq<Property>)
  {
    PlainKeys(properties) && DistinctKeys(properties)
  }

  /** The initial state satisfies the invariant. */
  lemma InitializeValid(nodeCount: Int32)
    requires Initialize(nodeCount).Ok?
    ensures Valid(Initialize(nodeCount).value)
  {
  }

  /** The invariant reads the registry only. */
  lemma ValidReadsRegistry(s: State, t: State)
    requires Valid(s)
    requires t.projectsById == s.projectsById && t.projectsByPath == s.projectsByPath
    ensures Valid(t)
  {
  }

  /** A group whose members all keep their stored instances stays labelled. */
  lemma LabelledUnchanged(b1: map<int, Project>, b2: map<int, Project>, ids: seq<int>)
    requires Labelled(b1, ids)
    requires forall k :: 0 <= k < |ids| ==> ids[k] in b2 && b2[ids[k]] == b1[ids[k]]
    ensures Labelled(b2, ids)
  {
    assert Members(b2, ids) == Members(b1, ids);
  }

  /** The relabelled group carries the labels `Disambiguate` characterises. */
  lemma RelabelledGroupLabelled(byId: map<int, Project>, ids: seq<int>)
    requires forall k :: 0 <= k < |ids| ==> ids[k] in byId
    requires Distinct(ids)
    requires forall k :: 0 <= k < |ids| ==> Distinct(byId[ids[k]].globalProperties)
    ensures Labelled(Relabel(byId, ids), ids)
  {
    var m := Members(byId, ids);
    var d := Disambiguate(m);
    var r := Relabel(byId, ids);
    assert Members(r, ids) == d;
    DisambiguateNoRepeats(m);
    forall k | 0 <= k < |ids|
      ensures Elems(r[ids[k]].disambiguations) == Distinguishing(Members(r, ids), k)
    {
      DisambiguateLabels(m, k);
      DistinguishingReadsProperties(m, d, k);
    }
  }

  /** A group of one fresh instance is labelled. */
  lemma SingletonLabelled(byId: map<int, Project>, id: int)
    requires id in byId && byId[id].disambiguations == []
    ensures Labelled(byId, [id])
  {
    SingletonUnlabelled(Members(byId, [id]));
  }

  /** The facts about the new group that the invariant needs. */
  lemma NewGroupFacts(s: State, id: int, path: string)
    requires Valid(s)
    requires id !in s.projectsById
    ensures Distinct(GroupOf(s, path) + [id])
    ensures forall q, x :: q in s.projectsByPath && q != path && x in s.projectsByPath[q] ==>
      x != id && x !in GroupOf(s, path)
  {
    var g := GroupOf(s, path);
    GroupMembersRegistered(s, path);
    var g2 := g + [id];
    forall i, j | 0 <= i < j < |g2|
      ensures g2[i] != g2[j]
    {
      if j < |g| {
        assert g[i] != g[j];
      } else {
        assert g2[i] == g[i] && g[i] in s.projectsById;
      }
    }
    forall q, x | q in s.projectsByPath && q != path && x in s.projectsByPath[q]
      ensures x != id && x !in g
    {
      assert x in s.projectsById;
    }
  }

  /** The instance map after registration, spelled out. */
  lemma RegisterById(s: State, id: int, path: string, properties: seq<Property>)
    requires Valid(s)
    requires id !in s.projectsById
    ensures var g2 := GroupOf(s, path) + [id];
      var byId := s.projectsById[id := NewProject(properties)];
      && (forall k :: 0 <= k < |g2| ==> g2[k] in byId)
      && Register(s, id, path, properties).projectsById == Regroup(byId, g2)
  {
    GroupMembersRegistered(s, path);
  }

  /** Registration keeps every instance's properties duplicate-free. */
  lemma RegisterKeepsDistinctProperties(s: State, id: int, path: string, properties: seq<Property>)
    requires Valid(s)
    requires id !in s.projectsById
    requires WellFormedProperties(properties)
    ensures var r := Register(s, id, path, properties);
      forall x :: x in r.projectsById ==> Distinct(r.projectsById[x].globalProperties)
  {
    var r := Register(s, id, path, properties);
    var g2 := GroupOf(s, path) + [id];
    var byId := s.projectsById[id := NewProject(properties)];
    RegisterById(s, id, path, properties);
  }

  /** Registration keeps the groups duplicate-free and disjoint. */
  lemma RegisterKeepsGroupsApart(s: State, id: int, path: string, properties: seq<Property>)
    requires Valid(s)
    requires id !in s.projectsById
    ensures var r := Register(s, id, path, properties);
      && (forall q :: q in r.projectsByPath ==> Distinct(r.projectsByPath[q]))
      && GroupsDisjoint(r.projectsByPath)
  {
    var r := Register(s, id, path, properties);
    NewGroupFacts(s, id, path);
    forall p1, p2, x | p1 in r.projectsByPath && p2 in r.projectsByPath && x in r.projectsByPath[p1] && x in r.projectsByPath[p2]
      ensures p1 == p2
    {
      if p1 != path && p2 != path {
        assert x in s.projectsByPath[p1] && x in s.projectsByPath[p2];
      }
    }
  }

  /** Registration leaves every other group, and its members' stored
      instances with their labels, as they were. */
  lemma RegisterKeepsOtherLabels(s: State, id: int, path: string, properties: seq<Property>, q: string)
    requires Valid(s)
    requires id !in s.projectsById
    requires q in s.projectsByPath && q != path
    ensures var r := Register(s, id, path, properties);
      && r.projectsByPath[q] == s.projectsByPath[q]
      && (forall k :: 0 <= k < |s.projectsByPath[q]| ==>
            s.projectsByPath[q][k] in r.projectsById
            && r.projectsById[s.projectsByPath[q][k]] == s.projectsById[s.projectsByPath[q][k]])
    ensures Labelled(Register(s, id, path, properties).projectsById, s.projectsByPath[q])
  {
    var r := Register(s, id, path, properties);
    var g2 := GroupOf(s, path) + [id];
    var byId := s.projectsById[id := NewProject(properties)];
    RegisterById(s, id, path, properties);
    NewGroupFacts(s, id, path);
    var h := s.projectsByPath[q];
    assert Labelled(s.projectsById, h);
    forall k | 0 <= k < |h|
      ensures h[k] in r.projectsById && r.projectsById[h[k]] == s.projectsById[h[k]]
    {
      assert h[k] in s.projectsByPath[q];
      assert h[k] !in g2;
    }
    LabelledUnchanged(s.projectsById, r.projectsById, h);
  }

  /** Registration leaves the new instance's group labelled. */
  lemma RegisterLabelsGroup(s: State, id: int, path: string, properties: seq<Property>)
    requires Valid(s)
    requires id !in s.projectsById
    requires WellFormedProperties(properties)
    ensures Labelled(Register(s, id, path, properties).projectsById, GroupOf(s, path) + [id])
  {
    var g2 := GroupOf(s, path) + [id];
    var byId := s.projectsById[id := NewProject(properties)];
    RegisterById(s, id, path, properties);
    NewGroupFacts(s, id, path);
    if |g2| > 1 {
      GroupMembersRegistered(s, path);
      assert forall k :: 0 <= k < |g2| ==> Distinct(byId[g2[k]].globalProperties);
      RelabelledGroupLabelled(byId, g2);
      assert Regroup(byId, g2) == Relabel(byId, g2);
    } else {
      assert g2 == [id];
      SingletonLabelled(byId, id);
    }
  }

  /** Registration puts the new instance in its path's group, and groups
      only grow, so every registered instance still belongs to one. */
  lemma RegisterKeepsAllGrouped(s: State, id: int, path: string, properties: seq<Property>)
    requires GroupsRegistered(s) && AllGrouped(s)
    requires id !in s.projectsById
    ensures AllGrouped(Register(s, id, path, properties))
  {
    var r := Register(s, id, path, properties);
    var g2 := GroupOf(s, path) + [id];
    assert r.projectsByPath[path] == g2;
    forall x | x in r.projectsById
      ensures exists p :: p in r.projectsByPath && x in r.projectsByPath[p]
    {
      if x == id {
        assert g2[|g2| - 1] == id;
        assert id in r.projectsByPath[path];
      } else {
        var p :| p in s.projectsByPath && x in s.projectsByPath[p];
        if p == path {
          assert x in g2;
        } else {
          assert r.projectsByPath[p] == s.projectsByPath[p];
        }
      }
    }
  }

  /** Registering an unseen instance with well-formed properties keeps the
      invariant. */
  lemma RegisterValid(s: State, id: int, path: string, properties: seq<Property>)
    requires Valid(s)
    requires id !in s.projectsById
    requires WellFormedProperties(properties)
    ensures Valid(Register(s, id, path, properties))
  {
    var r := Register(s, id, path, properties);
    RegisterKeepsDistinctProperties(s, id, path, properties);
    RegisterKeepsGroupsApart(s, id, path, properties);
    RegisterLabelsGroup(s, id, path, properties);
    RegisterKeepsAllGrouped(s, id, path, properties);
    forall q | q in r.projectsByPath
      ensures Labelled(r.projectsById, r.projectsByPath[q])
    {
      if q != path {
        RegisterKeepsOtherLabels(s, id, path, properties, q);
      }
    }
  }

  /** A project-started event for an unseen instance leaves the instance's
      group labelled. */
  lemma ProjectStartedLabelsGroup(s: State, id: int, path: string, properties: seq<Property>)
    requires Valid(s)
    requires id !in s.projectsById
    requires WellFormedProperties(properties)
    ensures Labelled(ProjectStartedHandler(s, id, path, properties).projectsById, GroupOf(s, path) + [id])
  {
    var counted := s.(totalRequests := Increment(s.totalRequests));
    ValidReadsRegistry(s, counted);
    RegisterLabelsGroup(counted, id, path, properties);
  }

  /** A project-started event with well-formed properties keeps the invariant. */
  lemma ProjectStartedValid(s: State, id: int, path: string, properties: seq<Property>)
    requires Valid(s)
    requires WellFormedProperties(properties)
    ensures Valid(ProjectStartedHandler(s, id, path, properties))
  {
    var counted := s.(totalRequests := Increment(s.totalRequests));
    ValidReadsRegistry(s, counted);
    if id !in s.projectsById {
      RegisterValid(counted, id, path, properties);
    }
  }
}
