/** The build engine's event stream as the logger sees it: each event is
    dispatched to the handler `Initialize` subscribed for it, in arrival
    order.  A handler that throws ends the run: nothing in the logger catches
    the exception. */
module Events {
  import opened Results
  import opened Projects
  import opened Disambiguation
  import opened Logger
  import opened Invariant

  /** The build events the logger subscribes to, with the fields its handlers
      read. */
  datatype Event =
    | ProjectStarted(instanceId: int, projectFile: string, properties: seq<Property>)
    | ProjectFinished
    | TargetStarted(nodeId: int, instanceId: int, projectFile: string, targetName: string)
    | TargetFinished(nodeId: int)
    | MessageRaised(importance: Importance, message: string)
    | WarningRaised(message: string)
    | ErrorRaised(message: string)

  /** One event through its handler. */
  function Step(s: State, e: Event): (r: Result<State>)
    requires GroupsRegistered(s)
    ensures r.Ok? ==> GroupsRegistered(r.value) && |r.value.nodes| == |s.nodes|
    ensures r.Err? <==>
      || (e.TargetStarted? && !(0 <= e.nodeId < |s.nodes| && e.instanceId in s.projectsById))
      || (e.TargetFinished? && !(0 <= e.nodeId < |s.nodes|))
  {
    match e
    case ProjectStarted(id, file, props) => Ok(ProjectStartedHandler(s, id, file, props))
    case ProjectFinished => Ok(IncrementCompleted(s))
    case TargetStarted(node, id, file, target) => TargetStartedHandler(s, node, id, file, target)
    case TargetFinished(node) => TargetFinishedHandler(s, node)
    case MessageRaised(importance, message) => Ok(MessageRaisedHandler(s, importance, message))
    case WarningRaised(message) => Ok(WarningRaisedHandler(s, message))
    case ErrorRaised(message) => Ok(ErrorRaisedHandler(s, message))
  }

  /** The events in order, up to the first that throws. */
  function Run(s: State, events: seq<Event>): (r: Result<State>)
    requires GroupsRegistered(s)
    ensures r.Ok? ==> GroupsRegistered(r.value) && |r.value.nodes| == |s.nodes|
    decreases |events|
  {
    if |events| == 0 then Ok(s)
    else
      match Step(s, events[0])
      case Err(error) => Err(error)
      case Ok(next) => Run(next, events[1..])
  }

  /** The state after each prefix of the events, as long as no handler has
      thrown; once one has, the state it was given. */
  function Trace(s: State, events: seq<Event>): (r: State)
    requires GroupsRegistered(s)
    ensures GroupsRegistered(r)
    decreases |events|
  {
    if |events| == 0 then s
    else
      match Step(s, events[0])
      case Err(_) => s
      case Ok(next) => Trace(next, events[1..])
  }

  /** A run succeeds exactly when no event throws in the state the events
      before it lead to, and then ends in that trace's last state. */
  lemma {:induction false} RunTrace(s: State, events: seq<Event>)
    requires GroupsRegistered(s)
    ensures Run(s, events).Ok? <==>
      forall k :: 0 <= k < |events| ==> Step(Trace(s, events[..k]), events[k]).Ok?
    ensures Run(s, events).Ok? ==> Run(s, events).value == Trace(s, events)
    decreases |events|
  {
    if |events| > 0 {
      assert Trace(s, events[..0]) == s;
      match Step(s, events[0])
      case Err(_) =>
      case Ok(next) =>
        RunTrace(next, events[1..]);
        forall k | 1 <= k < |events|
          ensures Trace(s, events[..k]) == Trace(next, events[1..][..k - 1])
          ensures events[k] == events[1..][k - 1]
        {
          assert events[..k][0] == events[0];
          assert events[..k][1..] == events[1..][..k - 1];
        }
    }
  }

  /** A run that succeeds got past its first event and continued from the
      state that event left. */
  lemma RunStep(s: State, events: seq<Event>)
    requires GroupsRegistered(s)
    requires |events| > 0 && Run(s, events).Ok?
    ensures Step(s, events[0]).Ok?
    ensures Run(Step(s, events[0]).value, events[1..]) == Run(s, events)
  {
  }

  /** The message each event adds to the queue, if any. */
  function Queued(e: Event): seq<string>
  {
    match e
    case MessageRaised(importance, message) => if importance == High then [message] else []
    case WarningRaised(message) => [message]
    case ErrorRaised(message) => [message]
    case _ => []
  }

  /** The messages a run of events queues, in order. */
  function QueuedAll(events: seq<Event>): seq<string>
    decreases |events|
  {
    if |events| == 0 then [] else Queued(events[0]) + QueuedAll(events[1..])
  }

  /** The number of events of one kind. */
  function CountStarted(events: seq<Event>): nat
    decreases |events|
  {
    if |events| == 0 then 0
    else (if events[0].ProjectStarted? then 1 else 0) + CountStarted(events[1..])
  }

  function CountFinished(events: seq<Event>): nat
    decreases |events|
  {
    if |events| == 0 then 0
    else (if events[0].ProjectFinished? then 1 else 0) + CountFinished(events[1..])
  }

  /** Every project-started event carries well-formed properties. */
  predicate WellFormedEvents(events: seq<Event>)
  {
    forall k :: 0 <= k < |events| && events[k].ProjectStarted? ==> WellFormedProperties(events[k].properties)
  }

  /** One event with well-formed properties keeps the invariant. */
  lemma StepValid(s: State, e: Event)
    requires Valid(s)
    requires e.ProjectStarted? ==> WellFormedProperties(e.properties)
    requires Step(s, e).Ok?
    ensures Valid(Step(s, e).value)
  {
    match e
    case ProjectStarted(id, file, props) => ProjectStartedValid(s, id, file, props);
    case _ => ValidReadsRegistry(s, Step(s, e).value);
  }

  /** A run of well-formed events keeps the invariant: whatever the order of
      arrival, every group's labels are its members' distinguishing
      properties. */
  lemma {:induction false} RunValid(s: State, events: seq<Event>)
    requires Valid(s)
    requires WellFormedEvents(events)
    requires Run(s, events).Ok?
    ensures Valid(Run(s, events).value)
    decreases |events|
  {
    if |events| > 0 {
      StepValid(s, events[0]);
      var next := Step(s, events[0]).value;
      assert WellFormedEvents(events[1..]) by {
        assert forall k :: 0 <= k < |events| - 1 ==> events[1..][k] == events[k + 1];
      }
      RunValid(next, events[1..]);
    }
  }

  /** One event adds its own message, if any, to the back of the queue. */
  lemma StepQueue(s: State, e: Event)
    requires GroupsRegistered(s)
    requires Step(s, e).Ok?
    ensures Step(s, e).value.messages == s.messages + Queued(e)
  {
  }

  /** A successful run is its first event's step followed by a successful
      run of the rest from the state that step left. */
  lemma RunFirst(s: State, events: seq<Event>) returns (next: State)
    requires GroupsRegistered(s)
    requires |events| > 0 && Run(s, events).Ok?
    ensures GroupsRegistered(next)
    ensures next.messages == s.messages + Queued(events[0])
    ensures Run(next, events[1..]).Ok? && Run(next, events[1..]).value == Run(s, events).value
  {
    RunStep(s, events);
    next := Step(s, events[0]).value;
    StepQueue(s, events[0]);
  }

  /** The queue is first in, first out: a run appends exactly the messages of
      its errors, warnings and high-importance messages, in arrival order. */
  lemma {:induction false} RunQueue(s: State, events: seq<Event>)
    requires GroupsRegistered(s)
    requires Run(s, events).Ok?
    ensures Run(s, events).value.messages == s.messages + QueuedAll(events)
    decreases |events|
  {
    if |events| > 0 {
      var next := RunFirst(s, events);
      var rest := QueuedAll(events[1..]);
      RunQueue(next, events[1..]);
      assert QueuedAll(events) == Queued(events[0]) + rest;
      assert (s.messages + Queued(events[0])) + rest == s.messages + (Queued(events[0]) + rest);
    }
  }

  /** One more `x++` on a `uint` counter that has been increased `n` times. */
  lemma IncrementWraps(x: Uint32, n: nat)
    requires x == n % UintLimit
    ensures Increment(x) == (n + 1) % UintLimit
  {
    var q := n / UintLimit;
    assert n == q * UintLimit + x;
    assert n + 1 == q * UintLimit + (x + 1);
    if x + 1 == UintLimit {
      assert n + 1 == (q + 1) * UintLimit;
    }
  }

  /** One event counts a start or a finish, by the wrapping increment. */
  lemma StepCounts(s: State, e: Event)
    requires GroupsRegistered(s)
    requires Step(s, e).Ok?
    ensures Step(s, e).value.totalRequests
      == if e.ProjectStarted? then Increment(s.totalRequests) else s.totalRequests
    ensures Step(s, e).value.completedRequests
      == if e.ProjectFinished? then Increment(s.completedRequests) else s.completedRequests
  {
  }

  /** A run counts the projects started and finished modulo 2^32. */
  lemma {:induction false} RunCounts(s: State, events: seq<Event>, started: nat, finished: nat)
    requires GroupsRegistered(s)
    requires Run(s, events).Ok?
    requires s.totalRequests == started % UintLimit
    requires s.completedRequests == finished % UintLimit
    ensures Run(s, events).value.totalRequests == (started + CountStarted(events)) % UintLimit
    ensures Run(s, events).value.completedRequests == (finished + CountFinished(events)) % UintLimit
    decreases |events|
  {
    if |events| > 0 {
      var e := events[0];
      var next := Step(s, e).value;
      StepCounts(s, e);
      var started' := started + (if e.ProjectStarted? then 1 else 0);
      var finished' := finished + (if e.ProjectFinished? then 1 else 0);
      if e.ProjectStarted? {
        IncrementWraps(s.totalRequests, started);
      }
      if e.ProjectFinished? {
        IncrementWraps(s.completedRequests, finished);
      }
      assert next.totalRequests == started' % UintLimit;
      assert next.completedRequests == finished' % UintLimit;
      RunCounts(next, events[1..], started', finished');
    }
  }

  /** A repeated project-started event only counts again: the registry keeps
      the first registration. */
  lemma RegistrationIdempotent(s: State, id: int, path: string, properties: seq<Property>)
    requires GroupsRegistered(s)
    ensures var once := ProjectStartedHandler(s, id, path, properties);
      var twice := ProjectStartedHandler(once, id, path, properties);
      && twice.projectsById == once.projectsById
      && twice.projectsByPath == once.projectsByPath
      && twice.totalRequests == Increment(once.totalRequests)
  {
  }

  /** A target that finishes leaves its node idle, as if it had never
      started there. */
  lemma LastFinishWins(s: State, node: int, id: int, path: string, target: string)
    requires GroupsRegistered(s)
    requires TargetStartedHandler(s, node, id, path, target).Ok?
    ensures TargetFinishedHandler(TargetStartedHandler(s, node, id, path, target).value, node)
      == TargetFinishedHandler(s, node)
  {
    var t := TargetStartedHandler(s, node, id, path, target).value;
    assert t.nodes[node := Idle] == s.nodes[node := Idle];
  }

  /** Under the invariant, a running target's slot shows its project file
      followed by a label listing exactly the instance's distinguishing
      properties within the path group it belongs to. */
  lemma TargetStartedShowsLabel(s: State, node: int, id: int, path: string, target: string)
    requires Valid(s)
    requires TargetStartedHandler(s, node, id, path, target).Ok?
    ensures id in s.projectsById
    ensures var slot := TargetStartedHandler(s, node, id, path, target).value.nodes[node];
      && slot.target == target
      && slot.project == path + s.projectsById[id].Disambiguator()
    ensures exists file, k ::
      && file in s.projectsByPath
      && 0 <= k < |s.projectsByPath[file]|
      && s.projectsByPath[file][k] == id
      && Elems(s.projectsById[id].disambiguations)
           == Distinguishing(Members(s.projectsById, s.projectsByPath[file]), k)
  {
    var file :| file in s.projectsByPath && id in s.projectsByPath[file];
    var g := s.projectsByPath[file];
    var k :| 0 <= k < |g| && g[k] == id;
    assert Labelled(s.projectsById, g);
  }
}
