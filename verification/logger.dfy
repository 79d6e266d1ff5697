/** The logger's state and its event handlers, each an atomic step from one
    state to the next.  The C# handlers mutate shared collections from the
    build engine's threads; here they are pure functions applied in turn. */
module Logger {
  import opened Results
  import opened Projects
  import opened Disambiguation

  /** The range of C#'s `int`. */
  const IntMax: int := 0x7fff_ffff
  type Int32 = x: int | -IntMax - 1 <= x <= IntMax

  /** `uint` counters wrap at 2^32. */
  const UintLimit: int := 0x1_0000_0000
  type Uint32 = x: int | 0 <= x < UintLimit

  /** `x++` on a `uint`: one more, or zero after the largest value. */
  function Increment(x: Uint32): (r: Uint32)
    ensures r < x <==> x == UintLimit - 1
    ensures x < UintLimit - 1 ==> r == x + 1
    ensures x == UintLimit - 1 ==> r == 0
  {
    (x + 1) % UintLimit
  }

  /** The `Project` and `Target` fields of one node's `NodeState`. */
  datatype Slot = Slot(project: string, target: string)

  /** A node that runs nothing. */
  const Idle := Slot("", "")

  /** `MessageImportance`. */
  datatype Importance = High | Normal | Low

  /** Everything the handlers read and write. */
  datatype State = State(
    nodes: seq<Slot>,
    projectsById: map<int, Project>,
    projectsByPath: map<string, seq<int>>,
    messages: seq<string>,
    totalRequests: Uint32,
    completedRequests: Uint32)

  /** Every id listed in a path group is a registered instance.  In the C#
      code the groups hold the instances themselves; here they hold ids, and
      this is what makes them refer to real instances. */
  predicate GroupsRegistered(s: State)
  {
    forall path, id {:trigger id in s.projectsByPath[path]} ::
      path in s.projectsByPath && id in s.projectsByPath[path] ==> id in s.projectsById
  }

  /** `Initialize(eventSource, nodeCount)`: one idle slot per node plus one,
      empty registry and queue, both counters at zero.  A node count whose
      successor is not a valid list capacity makes `new List<NodeState>`
      throw. */
  function Initialize(nodeCount: Int32): (r: Result<State>)
    ensures r.Err? <==> nodeCount < -1 || nodeCount == IntMax
    ensures r.Err? ==> r.error == OutOfRange
    ensures r.Ok? ==>
      && |r.value.nodes| == nodeCount + 1
      && (forall i :: 0 <= i < |r.value.nodes| ==> r.value.nodes[i] == Idle)
      && r.value.projectsById == map[] && r.value.projectsByPath == map[]
      && r.value.messages == []
      && r.value.totalRequests == 0 && r.value.completedRequests == 0
  {
    if nodeCount < -1 || nodeCount == IntMax then Err(OutOfRange)
    else Ok(State(seq(nodeCount + 1, _ => Idle), map[], map[], [], 0, 0))
  }

  /** The group of instances already started from `path`, oldest first. */
  function GroupOf(s: State, path: string): seq<int>
  {
    if path in s.projectsByPath then s.projectsByPath[path] else []
  }

  /** The registered instances that `ids` name, in order. */
  function Members(byId: map<int, Project>, ids: seq<int>): (r: seq<Project>)
    requires forall k :: 0 <= k < |ids| ==> ids[k] in byId
    ensures |r| == |ids|
    ensures forall k :: 0 <= k < |ids| ==> r[k] == byId[ids[k]]
  {
    seq(|ids|, k requires 0 <= k < |ids| => byId[ids[k]])
  }

  /** Stores `ps[k]` under `ids[k]` for every `k`. */
  function WriteBack(byId: map<int, Project>, ids: seq<int>, ps: seq<Project>): (r: map<int, Project>)
    requires |ids| == |ps|
    ensures r.Keys == byId.Keys + Elems(ids)
    ensures forall x :: x in byId && x !in ids ==> r[x] == byId[x]
    ensures Distinct(ids) ==> forall k :: 0 <= k < |ids| ==> r[ids[k]] == ps[k]
    decreases |ids|
  {
    if |ids| == 0 then byId
    else
      var r := WriteBack(byId[ids[0] := ps[0]], ids[1..], ps[1..]);
      assert forall x :: x in ids <==> x == ids[0] || x in ids[1..];
      assert forall k :: 1 <= k < |ids| ==> ids[k] == ids[1..][k - 1];
      r
  }

  /** `Disambiguate(list)` on the instances of a group, written back under
      their ids. */
  function Relabel(byId: map<int, Project>, ids: seq<int>): (r: map<int, Project>)
    requires forall k :: 0 <= k < |ids| ==> ids[k] in byId
    ensures r.Keys == byId.Keys
    ensures forall x :: x in byId && x !in ids ==> r[x] == byId[x]
    ensures Distinct(ids) ==>
      forall k :: 0 <= k < |ids| ==> r[ids[k]] == Disambiguate(Members(byId, ids))[k]
  {
    WriteBack(byId, ids, Disambiguate(Members(byId, ids)))
  }

  /** Registration of an unseen instance: it is stored under its id and
      appended to the group of its path, creating the group when the path is
      new, and the group is relabelled when it now has more than one member.
      Other groups, the slots, the queue and the counters are untouched. */
  function Register(s: State, id: int, projectFile: string, properties: seq<Property>): (r: State)
    requires GroupsRegistered(s)
    requires id !in s.projectsById
    ensures GroupsRegistered(r)
    ensures r.projectsById.Keys == s.projectsById.Keys + {id}
    ensures r.projectsByPath == s.projectsByPath[projectFile := GroupOf(s, projectFile) + [id]]
    ensures r.projectsById[id].globalProperties == FormatProperties(properties)
    ensures |GroupOf(s, projectFile)| == 0 ==> r.projectsById == s.projectsById[id := NewProject(properties)]
    ensures forall x :: x in s.projectsById && x !in GroupOf(s, projectFile) ==>
      r.projectsById[x] == s.projectsById[x]
    ensures r == s.(projectsById := r.projectsById, projectsByPath := r.projectsByPath)
  {
    var group := GroupOf(s, projectFile) + [id];
    var byId := s.projectsById[id := NewProject(properties)];
    GroupMembersRegistered(s, projectFile);
    assert forall k :: 0 <= k < |group| ==> group[k] in byId;
    var regrouped := Regroup(byId, group);
    RegisterKeepsGroupsRegistered(s, regrouped, projectFile, id);
    s.(projectsById := regrouped, projectsByPath := s.projectsByPath[projectFile := group])
  }

  /** The instances of a group after one joins it: relabelled when the group
      has more than one member, otherwise as they are. */
  function Regroup(byId: map<int, Project>, group: seq<int>): (r: map<int, Project>)
    requires forall k :: 0 <= k < |group| ==> group[k] in byId
    ensures r.Keys == byId.Keys
    ensures forall x :: x in byId && x !in group ==> r[x] == byId[x]
    ensures forall x :: x in byId ==> r[x].globalProperties == byId[x].globalProperties
    ensures |group| <= 1 ==> r == byId
  {
    if |group| > 1 then
      assert forall x :: x in byId ==> Relabel(byId, group)[x].globalProperties == byId[x].globalProperties by {
        forall x | x in byId
          ensures Relabel(byId, group)[x].globalProperties == byId[x].globalProperties
        {
          RelabelKeepsProperties(byId, group, x);
        }
      }
      Relabel(byId, group)
    else byId
  }

  /** The members of a path group are registered instances. */
  lemma GroupMembersRegistered(s: State, path: string)
    requires GroupsRegistered(s)
    ensures forall k :: 0 <= k < |GroupOf(s, path)| ==> GroupOf(s, path)[k] in s.projectsById
  {
    if path in s.projectsByPath {
      var g := s.projectsByPath[path];
      forall k | 0 <= k < |g|
        ensures g[k] in s.projectsById
      {
        var x := g[k];
        assert x in s.projectsByPath[path];
        assert path in s.projectsByPath && x in s.projectsByPath[path] ==> x in s.projectsById;
      }
    }
  }

  /** Registering an instance keeps every group member registered. */
  lemma RegisterKeepsGroupsRegistered(s: State, byId: map<int, Project>, path: string, id: int)
    requires GroupsRegistered(s)
    requires s.projectsById.Keys + {id} <= byId.Keys
    ensures GroupsRegistered(s.(projectsById := byId, projectsByPath := s.projectsByPath[path := GroupOf(s, path) + [id]]))
  {
    var t := s.(projectsById := byId, projectsByPath := s.projectsByPath[path := GroupOf(s, path) + [id]]);
    forall q, x | q in t.projectsByPath && x in t.projectsByPath[q]
      ensures x in t.projectsById
    {
      if q == path {
        GroupMembersRegistered(s, path);
        if x != id {
          var k :| 0 <= k < |GroupOf(s, path)| && GroupOf(s, path)[k] == x;
        }
      } else {
        assert x in s.projectsByPath[q];
      }
    }
  }

  /** `ProjectStartedHandler`: counts the request and registers an unseen
      instance id; a repeated id changes nothing else. */
  function ProjectStartedHandler(s: State, id: int, projectFile: string, properties: seq<Property>)
    : (r: State)
    requires GroupsRegistered(s)
    ensures GroupsRegistered(r)
    ensures r.totalRequests == Increment(s.totalRequests)
    ensures r.nodes == s.nodes && r.messages == s.messages
    ensures r.completedRequests == s.completedRequests
    ensures id in s.projectsById ==>
      r.projectsById == s.projectsById && r.projectsByPath == s.projectsByPath
    ensures id !in s.projectsById ==>
      && r.projectsById.Keys == s.projectsById.Keys + {id}
      && r.projectsByPath.Keys == s.projectsByPath.Keys + {projectFile}
      && r.projectsByPath[projectFile] == GroupOf(s, projectFile) + [id]
      && r.projectsById[id].globalProperties == FormatProperties(properties)
      && (forall path :: path in s.projectsByPath && path != projectFile ==>
            r.projectsByPath[path] == s.projectsByPath[path])
    ensures forall x :: x in s.projectsById && x !in GroupOf(s, projectFile) ==>
      x in r.projectsById && r.projectsById[x] == s.projectsById[x]
  {
    var counted := s.(totalRequests := Increment(s.totalRequests));
    if id in s.projectsById then counted
    else Register(counted, id, projectFile, properties)
  }

  /** `GlobalProperties` is read-only: no project-started event replaces the
      properties of an instance already registered. */
  lemma ProjectPropertiesFixed(s: State, id: int, projectFile: string, properties: seq<Property>, x: int)
    requires GroupsRegistered(s)
    requires x in s.projectsById
    ensures var r := ProjectStartedHandler(s, id, projectFile, properties);
      x in r.projectsById && r.projectsById[x].globalProperties == s.projectsById[x].globalProperties
  {
    if id !in s.projectsById {
      var group := GroupOf(s, projectFile) + [id];
      var byId := s.projectsById[id := NewProject(properties)];
      GroupMembersRegistered(s, projectFile);
      assert forall k :: 0 <= k < |group| ==> group[k] in byId;
      if |group| > 1 {
        RelabelKeepsProperties(byId, group, x);
      }
    }
  }

  /** Relabelling never touches an instance's global properties. */
  lemma RelabelKeepsProperties(byId: map<int, Project>, ids: seq<int>, x: int)
    requires forall k :: 0 <= k < |ids| ==> ids[k] in byId
    requires x in byId
    ensures Relabel(byId, ids)[x].globalProperties == byId[x].globalProperties
  {
    RelabelKeepsPropertiesAll(byId, ids, Disambiguate(Members(byId, ids)));
  }

  /** `WriteBack` of a sequence with the same property lists as the members
      it replaces keeps every stored instance's properties. */
  lemma {:induction false} RelabelKeepsPropertiesAll(byId: map<int, Project>, ids: seq<int>, ps: seq<Project>)
    requires |ids| == |ps|
    requires forall k :: 0 <= k < |ids| ==> ids[k] in byId && ps[k].globalProperties == byId[ids[k]].globalProperties
    ensures forall x :: x in byId ==> WriteBack(byId, ids, ps)[x].globalProperties == byId[x].globalProperties
    decreases |ids|
  {
    if |ids| > 0 {
      var next := byId[ids[0] := ps[0]];
      assert forall k :: 0 <= k < |ids| - 1 ==> ids[1..][k] == ids[k + 1] && ps[1..][k] == ps[k + 1];
      forall k | 0 <= k < |ids| - 1
        ensures ids[1..][k] in next && ps[1..][k].globalProperties == next[ids[1..][k]].globalProperties
      {
        assert ids[k + 1] in byId;
      }
      RelabelKeepsPropertiesAll(next, ids[1..], ps[1..]);
    }
  }

  /** `IncrementCompleted`: a finished project is counted, nothing else changes. */
  function IncrementCompleted(s: State): (r: State)
    ensures r.completedRequests == Increment(s.completedRequests)
    ensures r == s.(completedRequests := r.completedRequests)
  {
    s.(completedRequests := Increment(s.completedRequests))
  }

  /** `TargetStartedHandler`: the node's slot shows the project file with the
      instance's label, and the target.  Indexing the node list comes first,
      so an out-of-range node is reported before an unknown instance. */
  function TargetStartedHandler(s: State, nodeId: int, id: int, projectFile: string, targetName: string)
    : (r: Result<State>)
    ensures r.Ok? <==> 0 <= nodeId < |s.nodes| && id in s.projectsById
    ensures r.Err? ==> r.error == (if 0 <= nodeId < |s.nodes| then NotFound else OutOfRange)
    ensures r.Ok? ==>
      && |r.value.nodes| == |s.nodes|
      && r.value.nodes[nodeId] == Slot(projectFile + s.projectsById[id].Disambiguator(), targetName)
      && (forall i :: 0 <= i < |s.nodes| && i != nodeId ==> r.value.nodes[i] == s.nodes[i])
      && r.value == s.(nodes := r.value.nodes)
  {
    if !(0 <= nodeId < |s.nodes|) then Err(OutOfRange)
    else if id !in s.projectsById then Err(NotFound)
    else Ok(s.(nodes := s.nodes[nodeId := Slot(projectFile + s.projectsById[id].Disambiguator(), targetName)]))
  }

  /** `TargetFinishedHandler`: the node's slot goes idle whatever it showed. */
  function TargetFinishedHandler(s: State, nodeId: int): (r: Result<State>)
    ensures r.Ok? <==> 0 <= nodeId < |s.nodes|
    ensures r.Err? ==> r.error == OutOfRange
    ensures r.Ok? ==>
      && |r.value.nodes| == |s.nodes|
      && r.value.nodes[nodeId] == Idle
      && (forall i :: 0 <= i < |s.nodes| && i != nodeId ==> r.value.nodes[i] == s.nodes[i])
      && r.value == s.(nodes := r.value.nodes)
  {
    if !(0 <= nodeId < |s.nodes|) then Err(OutOfRange)
    else Ok(s.(nodes := s.nodes[nodeId := Idle]))
  }

  /** `Messages.Enqueue`: the message goes to the back of the queue. */
  function Enqueue(s: State, message: string): (r: State)
    ensures r.messages == s.messages + [message]
    ensures r == s.(messages := r.messages)
  {
    s.(messages := s.messages + [message])
  }

  /** `ErrorRaisedHandler`: every error is queued. */
  function ErrorRaisedHandler(s: State, message: string): (r: State)
    ensures r.messages == s.messages + [message]
    ensures r == s.(messages := r.messages)
  {
    Enqueue(s, message)
  }

  /** `WarningRaisedHandler`: every warning is queued. */
  function WarningRaisedHandler(s: State, message: string): (r: State)
    ensures r.messages == s.messages + [message]
    ensures r == s.(messages := r.messages)
  {
    Enqueue(s, message)
  }

  /** `MessageRaisedHandler`: only high-importance messages are queued;
      anything else leaves the state as it was. */
  function MessageRaisedHandler(s: State, importance: Importance, message: string): (r: State)
    ensures importance == High ==> r.messages == s.messages + [message]
    ensures importance != High ==> r == s
    ensures r == s.(messages := r.messages)
  {
    if importance == High then Enqueue(s, message) else s
  }

  /** `TryDequeue`: the oldest queued message, if any, and the rest. */
  function TryDequeue(s: State): (r: (Option<string>, State))
    ensures |s.messages| == 0 ==> r.0 == None && r.1 == s
    ensures |s.messages| > 0 ==>
      r.0 == Some(s.messages[0]) && [s.messages[0]] + r.1.messages == s.messages
    ensures r.1 == s.(messages := r.1.messages)
  {
    if |s.messages| == 0 then (None, s)
    else (Some(s.messages[0]), s.(messages := s.messages[1..]))
  }

  /** The queue is first in, first out: a message enqueued behind others is
      not the one dequeued next, and one enqueued on an empty queue is. */
  lemma EnqueueThenDequeue(s: State, message: string)
    ensures var r := TryDequeue(Enqueue(s, message));
      && r.0 == Some(if |s.messages| == 0 then message else s.messages[0])
      && r.1.messages == (if |s.messages| == 0 then [] else s.messages[1..] + [message])
      && r.1 == s.(messages := r.1.messages)
  {
    if |s.messages| > 0 {
      assert (s.messages + [message])[1..] == s.messages[1..] + [message];
    }
  }
}
