/** The logger's behaviour on concrete event sequences: two configurations of
    one project, a target reported before its project, and diagnostics of
    different importance. */
module Scenarios {
  import opened Results
  import opened Projects
  import opened Disambiguation
  import opened Logger
  import opened Invariant
  import opened Events

  const AppProj := "app.proj"
  const Debug := [Property("Config", "Debug")]
  const Release := [Property("Config", "Release")]

  /** A single-key property list is well formed when its key has no '='. */
  lemma SingleWellFormed(key: string, value: string)
    requires '=' !in key
    ensures WellFormedProperties([Property(key, value)])
  {
  }

  /** In a labelled group, a member whose distinguishing properties are the
      single string `x` is labelled with exactly `x`. */
  lemma SingleLabel(byId: map<int, Project>, g: seq<int>, k: int, x: string)
    requires Labelled(byId, g)
    requires 0 <= k < |g|
    requires Distinguishing(Members(byId, g), k) == {x}
    ensures byId[g[k]].Disambiguator() == x
  {
    var d := byId[g[k]].disambiguations;
    SingletonElems(d, x);
    DisambiguatorSingle(byId[g[k]]);
  }

  /** Two members with one different property each are distinguished by it. */
  lemma PairDistinguishing(m: seq<Project>, p1: string, p2: string)
    requires |m| == 2 && p1 != p2
    requires m[0].globalProperties == [p1] && m[1].globalProperties == [p2]
    ensures Distinguishing(m, 0) == {p1} && Distinguishing(m, 1) == {p2}
  {
    assert !SharedByAll(m, p1) && !SharedByAll(m, p2);
  }

  /** The first and third members alike, the second different. */
  lemma TripleDistinguishing(m: seq<Project>, p1: string, p2: string)
    requires |m| == 3 && p1 != p2
    requires m[0].globalProperties == [p1] && m[1].globalProperties == [p2]
    requires m[2].globalProperties == [p1]
    ensures Distinguishing(m, 0) == {p1} && Distinguishing(m, 1) == {p2}
    ensures Distinguishing(m, 2) == {p1}
  {
    assert !SharedByAll(m, p1) && !SharedByAll(m, p2);
  }

  /** A labelled pair whose members declare `p1` and `p2` respectively. */
  lemma PairLabels(byId: map<int, Project>, g: seq<int>, p1: string, p2: string)
    requires Labelled(byId, g) && |g| == 2 && p1 != p2
    requires byId[g[0]].globalProperties == [p1] && byId[g[1]].globalProperties == [p2]
    ensures byId[g[0]].Disambiguator() == p1 && byId[g[1]].Disambiguator() == p2
  {
    PairDistinguishing(Members(byId, g), p1, p2);
    SingleLabel(byId, g, 0, p1);
    SingleLabel(byId, g, 1, p2);
  }

  /** A labelled triple declaring `p1`, `p2` and `p1`. */
  lemma TripleLabels(byId: map<int, Project>, g: seq<int>, p1: string, p2: string)
    requires Labelled(byId, g) && |g| == 3 && p1 != p2
    requires byId[g[0]].globalProperties == [p1] && byId[g[1]].globalProperties == [p2]
    requires byId[g[2]].globalProperties == [p1]
    ensures byId[g[0]].Disambiguator() == p1 && byId[g[1]].Disambiguator() == p2
    ensures byId[g[2]].Disambiguator() == p1
  {
    TripleDistinguishing(Members(byId, g), p1, p2);
    SingleLabel(byId, g, 0, p1);
    SingleLabel(byId, g, 1, p2);
    SingleLabel(byId, g, 2, p1);
  }

  /** Distinct values give distinct formatted properties. */
  lemma FormattedDiffer(key: string, v1: string, v2: string)
    requires v1 != v2
    ensures FormatProperty(Property(key, v1)) != FormatProperty(Property(key, v2))
  {
    var x := key + "=";
    assert FormatProperty(Property(key, v1)) == x + v1;
    assert FormatProperty(Property(key, v2)) == x + v2;
    assert (x + v1)[|x|..] == v1 && (x + v2)[|x|..] == v2;
  }

  /** The first instance of a new path is alone in its group. */
  lemma FirstOfPath(s: State, a: int, path: string, key: string, v: string)
    requires Valid(s)
    requires a !in s.projectsById && path !in s.projectsByPath
    requires '=' !in key
    ensures var s1 := ProjectStartedHandler(s, a, path, [Property(key, v)]);
      && Valid(s1)
      && s1.projectsByPath[path] == [a]
      && s1.projectsById[a].globalProperties == [FormatProperty(Property(key, v))]
  {
    SingleWellFormed(key, v);
    ProjectStartedValid(s, a, path, [Property(key, v)]);
  }

  /** A second instance joins a path's lone first instance with a different
      value: each is labelled with its own property. */
  lemma SecondConfiguration(s: State, s2: State, a: int, b: int, path: string, key: string, v1: string, v2: string)
    requires Valid(s)
    requires path in s.projectsByPath && s.projectsByPath[path] == [a]
    requires a in s.projectsById && s.projectsById[a].globalProperties == [key + "=" + v1]
    requires b !in s.projectsById
    requires '=' !in key && v1 != v2
    requires s2 == ProjectStartedHandler(s, b, path, [Property(key, v2)])
    ensures s2.projectsByPath[path] == [a, b]
    ensures s2.projectsById[a].Disambiguator() == key + "=" + v1
    ensures s2.projectsById[b].Disambiguator() == key + "=" + v2
  {
    var p1, p2 := key + "=" + v1, key + "=" + v2;
    assert p1 != p2 by {
      FormattedDiffer(key, v1, v2);
    }
    assert GroupOf(s, path) == [a];
    assert [a] + [b] == [a, b];
    assert s2.projectsByPath[path] == [a, b];
    assert s2.projectsById[b].globalProperties == [p2];
    ProjectPropertiesFixed(s, b, path, [Property(key, v2)], a);
    SingleWellFormed(key, v2);
    ProjectStartedLabelsGroup(s, b, path, [Property(key, v2)]);
    PairLabels(s2.projectsById, [a, b], p1, p2);
  }

  /** Two instances of one project file that differ in the value of one
      global property are each labelled with their own "key=value". */
  lemma TwoConfigurations(s: State, a: int, b: int, path: string, key: string, v1: string, v2: string)
    requires Valid(s)
    requires a !in s.projectsById && b !in s.projectsById && a != b
    requires path !in s.projectsByPath
    requires '=' !in key && v1 != v2
    ensures var s1 := ProjectStartedHandler(s, a, path, [Property(key, v1)]);
      var s2 := ProjectStartedHandler(s1, b, path, [Property(key, v2)]);
      && s2.projectsByPath[path] == [a, b]
      && s2.projectsById[a].Disambiguator() == key + "=" + v1
      && s2.projectsById[b].Disambiguator() == key + "=" + v2
  {
    var s1 := ProjectStartedHandler(s, a, path, [Property(key, v1)]);
    FirstOfPath(s, a, path, key, v1);
    SecondConfiguration(s1, ProjectStartedHandler(s1, b, path, [Property(key, v2)]), a, b, path, key, v1, v2);
  }

  /** A third instance joins a pair with the first one's value: the group
      is the three of them, labelled, with their properties unchanged. */
  lemma ThirdJoins(s: State, a: int, b: int, c: int, path: string, key: string, v1: string)
    requires Valid(s)
    requires path in s.projectsByPath && s.projectsByPath[path] == [a, b]
    requires a in s.projectsById && b in s.projectsById
    requires c !in s.projectsById
    requires '=' !in key
    ensures var s3 := ProjectStartedHandler(s, c, path, [Property(key, v1)]);
      && Labelled(s3.projectsById, [a, b, c])
      && s3.projectsById[a].globalProperties == s.projectsById[a].globalProperties
      && s3.projectsById[b].globalProperties == s.projectsById[b].globalProperties
      && s3.projectsById[c].globalProperties == [key + "=" + v1]
  {
    assert GroupOf(s, path) + [c] == [a, b, c] by {
      assert GroupOf(s, path) == [a, b];
    }
    ProjectPropertiesFixed(s, c, path, [Property(key, v1)], a);
    ProjectPropertiesFixed(s, c, path, [Property(key, v1)], b);
    SingleWellFormed(key, v1);
    ProjectStartedLabelsGroup(s, c, path, [Property(key, v1)]);
  }

  /** A third instance with the first instance's value: the two alike carry
      the same label, and the other keeps its own. */
  lemma ThirdConfiguration(s: State, a: int, b: int, c: int, path: string, key: string, v1: string, v2: string)
    requires Valid(s)
    requires path in s.projectsByPath && s.projectsByPath[path] == [a, b]
    requires a in s.projectsById && b in s.projectsById
    requires s.projectsById[a].globalProperties == [key + "=" + v1]
    requires s.projectsById[b].globalProperties == [key + "=" + v2]
    requires c !in s.projectsById
    requires '=' !in key && v1 != v2
    ensures var s3 := ProjectStartedHandler(s, c, path, [Property(key, v1)]);
      && s3.projectsById[a].Disambiguator() == key + "=" + v1
      && s3.projectsById[b].Disambiguator() == key + "=" + v2
      && s3.projectsById[c].Disambiguator() == key + "=" + v1
  {
    FormattedDiffer(key, v1, v2);
    ThirdJoins(s, a, b, c, path, key, v1);
    TripleLabels(ProjectStartedHandler(s, c, path, [Property(key, v1)]).projectsById, [a, b, c], key + "=" + v1, key + "=" + v2);
  }

  /** On any logger state that satisfies the invariant and has
      seen neither "app.proj" nor instances 1 and 2 (a freshly initialized
      one, by `InitializeValid`, for instance), instances 1 and 2 of
      "app.proj" with Config=Debug and Config=Release are labelled
      "Config=Debug" and "Config=Release". */
  lemma DebugReleaseLabelled(s: State)
    requires Valid(s)
    requires 1 !in s.projectsById && 2 !in s.projectsById && AppProj !in s.projectsByPath
    ensures var s1 := ProjectStartedHandler(s, 1, AppProj, Debug);
      var s2 := ProjectStartedHandler(s1, 2, AppProj, Release);
      && s2.projectsById[1].Disambiguator() == "Config=Debug"
      && s2.projectsById[2].Disambiguator() == "Config=Release"
  {
    assert Debug == [Property("Config", "Debug")] && Release == [Property("Config", "Release")];
    assert "Config" + "=" + "Debug" == "Config=Debug";
    assert "Config" + "=" + "Release" == "Config=Release";
    TwoConfigurations(s, 1, 2, AppProj, "Config", "Debug", "Release");
  }

  /** A fresh logger has seen nothing, so `DebugReleaseLabelled` applies to it. */
  lemma FreshLoggerHasSeenNothing(nodeCount: Int32)
    requires Initialize(nodeCount).Ok?
    ensures Valid(Initialize(nodeCount).value)
    ensures Initialize(nodeCount).value.projectsById == map[]
    ensures Initialize(nodeCount).value.projectsByPath == map[]
  {
    InitializeValid(nodeCount);
  }

  /** A target reported on node 2 for instance 7 before instance 7 has
      started fails the lookup, and the run stops there. */
  lemma TargetBeforeProjectFails()
    ensures Initialize(2).Ok?
    ensures var s := Initialize(2).value;
      && TargetStartedHandler(s, 2, 7, AppProj, "Build") == Err(NotFound)
      && Run(s, [TargetStarted(2, 7, AppProj, "Build"), ProjectStarted(7, AppProj, Debug)]).Err?
  {
  }

  /** A low-importance message leaves the queue as it was; a high-importance
      one is appended. */
  lemma LowImportanceFiltered(s: State, text: string)
    requires GroupsRegistered(s)
    ensures Run(s, [MessageRaised(Low, text)]) == Ok(s)
    ensures Run(s, [MessageRaised(High, text)]).Ok?
    ensures Run(s, [MessageRaised(High, text)]).value.messages == s.messages + [text]
  {
    RunQueue(s, [MessageRaised(High, text)]);
    assert QueuedAll([MessageRaised(High, text)]) == [text];
  }
}
