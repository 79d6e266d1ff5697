# ReplacingLogger core in Dafny

ReplacingLogger is an MSBuild logger that keeps a live table of what each build
node is doing. It has one row per node, showing the project file and the target
being built. It also keeps a queue of diagnostics to print.

When several instances of the same project file build at once (say Debug and
Release), their rows would look identical. The logger tells them apart by
appending a *disambiguator*: the `key=value` global properties that not every
instance of that file shares.

This project models the logger's event handlers as pure state transitions on
one immutable state:

- the node slots;
- the instance registry (id to `Project`);
- the path groups (project file to instance ids, in arrival order);
- the message queue;
- the two `uint` request counters.

It proves what the handlers and the relabelling algorithm guarantee.

| file | module | contents |
|---|---|---|
| `results.dfy` | `Results` | `Result`/`Error`: the exceptions the handlers can throw (`NotFound`, `OutOfRange`) |
| `text.dfy` | `Text` | `String.Join` and a splitter that inverts it |
| `project.dfy` | `Projects` | the `Project` record, `GlobalProperties` formatting, `Disambiguator` |
| `disambiguation.dfy` | `Disambiguation` | `Disambiguate`, as its two phases, and its characterisation |
| `logger.dfy` | `Logger` | the state, `Initialize`, and every event handler |
| `invariant.dfy` | `Invariant` | the registry invariant, kept by every handler |
| `trace.dfy` | `Events` | event dispatch, runs of events, and properties of whole runs |
| `scenarios.dfy` | `Scenarios` | the Debug/Release example, an early target, and message filtering |
| `console.dfy` | `ConsoleWidth` | `CoerceToConsoleWidth`, as written and corrected |

Modelling decisions:

- **Handler exceptions.** An exception a handler would throw becomes `Err`:
  - `List` indexing with a bad node id, and a negative list capacity, give `OutOfRange`;
  - a dictionary lookup of an unknown instance id gives `NotFound`.

  `TargetStartedHandler` indexes the node list before it looks the instance
  up, so a bad node id is reported first.
- **Path groups.** In C# a path group holds the `Project` objects themselves.
  Here it holds their ids, and `Disambiguate` runs on the group's members
  read from the registry. Its results are written back under the same ids.
- **`Disambiguate`.** It is modelled as the code does it:
  - phase one builds a dictionary from each property string to its declarers;
  - phase two appends each string that fewer than all members declare to
    each of its declarers.

  C# leaves the enumeration order of that dictionary unspecified. The model
  enumerates in first-seen order, and every property about labels is stated
  on their *sets* of strings, never their order.
- **Counters.** `TotalRequests`/`CompletedRequests` are `uint` and wrap at
  2^32 (`Logger.Increment`).
- **Window width.** `CoerceToConsoleWidth` takes the window width as a
  parameter, because `Console.WindowWidth` is I/O.

Behaviour of the code worth knowing:

- **A handler that throws ends the run.** Nothing in the logger catches a
  handler's exception, so `Events.Run` stops at the first `Err`. What the
  build engine then does is outside the model.
- **The slot label uses the file name from the target-started event.** It
  does not use the file the instance was registered under (line 164).
- **Nothing caps the message queue.** It grows until it is drained.
- **A node count of -1 is accepted** and gives zero slots. Only a count below
  -1, or `int.MaxValue`, makes the capacity `NodeCount + 1` invalid.
- **Labels are joined in the dictionary's enumeration order**, which C#
  leaves unspecified.  Members with the same properties still get the same
  text, because each key is appended to both of them or to neither.
- **Only a member that declares a distinguishing property is labelled with
  it** (line 149).  With `{Configuration=Debug, Platform=x64}` and
  `{Configuration=Debug}` in one group, the first shows `Platform=x64` and the
  second shows no label at all: nothing records the absence of a property.

## Model

| member | source | states |
|---|---|---|
| `Projects.FormatProperties` | ReplacingLogger/Project.cs:16 | one string per key/value pair, in input order; each entry holds '=' and parses back to its pair; distinct keys without '=' give distinct strings |
| `Projects.ParseFormat` | ReplacingLogger/Project.cs:16 | `Key=Value` is read back as the same pair whenever the key holds no '=' |
| `Projects.NewProject` | ReplacingLogger/Project.cs:11-17 | a new instance's global properties are the formatted pairs (one per pair, each parsing back to it) and its disambiguation list is empty, so its `Disambiguator` is "" |
| `Projects.Project.Disambiguator` | ReplacingLogger/Project.cs:9 | `string.Join(", ", …)` of the list (`Text.Join`), or "" when it is empty: a non-empty label is as long as the entries plus two characters per separator, and cutting it at ", " gives the list back when no entry holds a comma |
| `Projects.DisambiguatorEmptyIff` | ReplacingLogger/Project.cs:9 | the label is "" exactly when the disambiguation list is empty (entries being non-empty) |
| `Projects.DisambiguatorSingle` | ReplacingLogger/Project.cs:9 | with one disambiguation the label is that string |
| `Projects.DisambiguatorSplits` | ReplacingLogger/Project.cs:9 | the label is the list joined in order with ", ": cutting it at ", " gives the list back when no entry holds a comma |
| `Projects.DisambiguatorAppend` | ReplacingLogger/Project.cs:9 | appending a disambiguation to a non-empty list appends ", " and it to the label |
| `Text.SplitJoin` | ReplacingLogger/Project.cs:9 | `Split` inverts `String.Join` on parts free of the separator's first character |
| `Text.JoinEmptyIff` | ReplacingLogger/Project.cs:9 | a join of non-empty parts is "" only when there are no parts |
| `Disambiguation.AddDeclaration` | ReplacingLogger/ReplacingLogger.cs:132-138 | one `AddOrUpdate`: the member is appended to the string's declarer list, which is created when the string is unseen; every other string keeps its list; the key order stays a duplicate-free listing of exactly the keys |
| `Disambiguation.AddMember` | ReplacingLogger/ReplacingLogger.cs:130-139 | recording a member's properties adds exactly the pairs (property, member), one list entry per occurrence; the declarer list of every key the member does not declare stays exactly as it was |
| `Disambiguation.BuildIndex` | ReplacingLogger/ReplacingLogger.cs:124-140 | the key order lists exactly the dictionary's keys, and every recorded declarer is the index of a member of the group |
| `Disambiguation.BuildIndexIndexes` | ReplacingLogger/ReplacingLogger.cs:124-140 | the dictionary lists exactly the properties the group declares; each one's declarers are the members that declare it, as many entries as declarations |
| `Disambiguation.BuildIndexDistinct` | ReplacingLogger/ReplacingLogger.cs:124-140 | each key is enumerated once; with duplicate-free property lists no declarer list names a member twice |
| `Disambiguation.Cleared` | ReplacingLogger/ReplacingLogger.cs:127-128 | every member keeps its properties and its disambiguations are emptied |
| `Disambiguation.Label` | ReplacingLogger/ReplacingLogger.cs:151-154 | exactly the listed members gain the property; properties and other labels are unchanged |
| `Disambiguation.LabelExact` | ReplacingLogger/ReplacingLogger.cs:151-154 | with a duplicate-free declarer list, each declarer's list gets the property appended once |
| `Disambiguation.LabelAll` | ReplacingLogger/ReplacingLogger.cs:142-157 | member i's label gains exactly the enumerated keys it declares whose declarer count differs from the group size |
| `Disambiguation.LabelAllDistinct` | ReplacingLogger/ReplacingLogger.cs:142-157 | phase two never lists a property twice for one member |
| `Disambiguation.Disambiguate` | ReplacingLogger/ReplacingLogger.cs:120-158 | the group keeps its size and every member's global properties |
| `Disambiguation.DisambiguateLabels` | ReplacingLogger/ReplacingLogger.cs:120-158 | member i's label, as a set, is exactly its own properties that some member of the group does not declare |
| `Disambiguation.DisambiguateNoRepeats` | ReplacingLogger/ReplacingLogger.cs:120-158 | no label lists a property twice |
| `Disambiguation.DisambiguateIgnoresOldLabels` | ReplacingLogger/ReplacingLogger.cs:127-128 | labels are rebuilt from scratch: groups with the same properties get the same result whatever labels they carried |
| `Disambiguation.SharedPropertiesGiveEmptyLabel` | ReplacingLogger/ReplacingLogger.cs:147-155 | a member all of whose properties every member declares ends with an empty label |
| `Disambiguation.SingletonUnlabelled` | ReplacingLogger/ReplacingLogger.cs:113-116 | a group of one has nothing to distinguish, consistent with skipping `Disambiguate` for it |
| `Disambiguation.DifferingMembersLabelled` | ReplacingLogger/ReplacingLogger.cs:147-155 | a property one member declares and another lacks is in the first member's label |
| `Disambiguation.LabelAllSame` | ReplacingLogger/ReplacingLogger.cs:144-156 | two members that, key by key, are both or neither among the declarers get identical lists from phase two, for any key order |
| `Disambiguation.SamePropertiesSameLabel` | ReplacingLogger/ReplacingLogger.cs:147-155 | members declaring the same properties get the same label set, the same list in the same order, and so the same `Disambiguator` text, whatever the dictionary's enumeration order |
| `Disambiguation.ArrivalOrderIrrelevant` | ReplacingLogger/ReplacingLogger.cs:120-158 | any arrival order of the same property lists gives each property list the same label set |
| `Logger.Increment` | ReplacingLogger/ReplacingLogger.cs:29-30 | `uint` `++`: one more, or 0 after 2^32-1 |
| `Logger.Initialize` | ReplacingLogger/ReplacingLogger.cs:40-56 | NodeCount+1 idle slots, empty registry, queue and counters; fails exactly when NodeCount+1 is not a valid capacity |
| `Logger.WriteBack` | ReplacingLogger/ReplacingLogger.cs:115 | the relabelled members replace exactly the group's entries |
| `Logger.Relabel` | ReplacingLogger/ReplacingLogger.cs:115 | each group member is stored as `Disambiguate` left it; instances outside the group are untouched |
| `Logger.Regroup` | ReplacingLogger/ReplacingLogger.cs:113-116 | relabelling only when the group has more than one member; no instance's properties change |
| `Logger.Register` | ReplacingLogger/ReplacingLogger.cs:103-116 | an unseen id is added to the registry and at the end of its path's group, creating the group; a first member is stored as constructed; every instance outside the new instance's group keeps its stored `Project`; slots, queue and counters are unchanged |
| `Logger.ProjectStartedHandler` | ReplacingLogger/ReplacingLogger.cs:99-118 | `TotalRequests` always increments; a known id leaves registry and groups unchanged; an unseen one is registered and appended to its group, other groups keep their members, and every instance outside that group keeps its stored `Project` |
| `Logger.ProjectPropertiesFixed` | ReplacingLogger/Project.cs:13 | no project-started event changes a registered instance's global properties |
| `Logger.IncrementCompleted` | ReplacingLogger/ReplacingLogger.cs:94-97 | `CompletedRequests` increments; nothing else changes |
| `Logger.TargetStartedHandler` | ReplacingLogger/ReplacingLogger.cs:160-166 | fails with OutOfRange for a bad node, else NotFound for an unknown id; otherwise only that slot changes, to (file + label, target) |
| `Logger.TargetFinishedHandler` | ReplacingLogger/ReplacingLogger.cs:168-174 | fails only for a bad node; otherwise that slot becomes idle, whatever it held, and nothing else changes |
| `Logger.Enqueue` | ReplacingLogger/ReplacingLogger.cs:78 | `Messages.Enqueue`: the message goes to the back of the queue; nothing else changes |
| `Logger.ErrorRaisedHandler` | ReplacingLogger/ReplacingLogger.cs:76-79 | the error goes to the back of the queue; nothing else changes |
| `Logger.WarningRaisedHandler` | ReplacingLogger/ReplacingLogger.cs:89-92 | the warning goes to the back of the queue; nothing else changes |
| `Logger.MessageRaisedHandler` | ReplacingLogger/ReplacingLogger.cs:81-87 | a high-importance message goes to the back of the queue; any other leaves the state unchanged |
| `Logger.TryDequeue` | ReplacingLogger/ReplacingLogger.cs:227 | the front of the queue is taken off first; an empty queue yields nothing and is unchanged |
| `Logger.EnqueueThenDequeue` | ReplacingLogger/ReplacingLogger.cs:78 | the queue is first in, first out: after an enqueue, the next dequeue returns the oldest message, which is the new one only when the queue was empty |
| `Invariant.InitializeValid` | ReplacingLogger/ReplacingLogger.cs:46-56 | the initial state satisfies the registry invariant |
| `Invariant.RelabelledGroupLabelled` | ReplacingLogger/ReplacingLogger.cs:115 | after relabelling, each member's label is, without repeats, its distinguishing properties |
| `Invariant.RegisterKeepsOtherLabels` | ReplacingLogger/ReplacingLogger.cs:108-116 | registering an instance leaves every other path group, its members' stored instances and so their labels as they were, and those labels still correct |
| `Invariant.RegisterKeepsAllGrouped` | ReplacingLogger/ReplacingLogger.cs:103-111 | after registration every registered instance still belongs to a path group: the new one to its path's group, the others to the groups they were in |
| `Invariant.RegisterValid` | ReplacingLogger/ReplacingLogger.cs:103-116 | registration keeps groups duplicate-free, disjoint, registered and correctly labelled |
| `Invariant.ProjectStartedValid` | ReplacingLogger/ReplacingLogger.cs:99-118 | every project-started event with well-formed properties keeps the invariant |
| `Events.Step` | ReplacingLogger/ReplacingLogger.cs:59-67 | each event goes to its subscribed handler; only a target event with a bad node or unknown instance fails |
| `Events.Run` | ReplacingLogger/ReplacingLogger.cs:59-67 | the events through their handlers, stopping at the first that throws; a completed run keeps every group member registered and the number of slots |
| `Events.RunTrace` | ReplacingLogger/ReplacingLogger.cs:59-67 | a run succeeds exactly when no event fails in the state its predecessors produced, and ends in that state |
| `Events.RunValid` | ReplacingLogger/ReplacingLogger.cs:99-158 | whatever the arrival order, after any run of well-formed events every group's labels are its members' distinguishing properties |
| `Events.RunQueue` | ReplacingLogger/ReplacingLogger.cs:76-92 | the queue is FIFO: a run appends exactly the texts of its errors, warnings and high-importance messages, in arrival order |
| `Events.RunCounts` | ReplacingLogger/ReplacingLogger.cs:94-101 | the counters equal the numbers of started and finished events, modulo 2^32 |
| `Events.RegistrationIdempotent` | ReplacingLogger/ReplacingLogger.cs:103 | a repeated project-started event changes neither registry nor groups, only the counter |
| `Events.LastFinishWins` | ReplacingLogger/ReplacingLogger.cs:160-174 | a finish after a start leaves the same state as the finish alone |
| `Events.TargetStartedShowsLabel` | ReplacingLogger/ReplacingLogger.cs:164 | under the invariant, a successful target start means the instance is registered; its slot shows the event's file followed by the instance's label, and that label lists exactly the instance's distinguishing properties within the path group it belongs to |
| `Scenarios.TwoConfigurations` | ReplacingLogger/ReplacingLogger.cs:99-158 | two instances of one file differing in one property value are labelled "key=value1" and "key=value2" |
| `Scenarios.ThirdConfiguration` | ReplacingLogger/ReplacingLogger.cs:99-158 | a third instance like the first: the two alike share a label, the other keeps its own |
| `Scenarios.DebugReleaseLabelled` | ReplacingLogger/ReplacingLogger.cs:99-158 | "app.proj" with Config=Debug and Config=Release is labelled "Config=Debug" and "Config=Release" |
| `Scenarios.TargetBeforeProjectFails` | ReplacingLogger/ReplacingLogger.cs:160-166 | a target for instance 7 before instance 7 started fails with NotFound and stops the run |
| `Scenarios.LowImportanceFiltered` | ReplacingLogger/ReplacingLogger.cs:81-87 | a low-importance message leaves the state unchanged; a high-importance one is appended |
| `ConsoleWidth.CoerceToConsoleWidth` | ReplacingLogger/ReplacingLogger.cs:233-245 | a long message is cut to the width; a short one is padded with spaces to width-3; fails exactly when the width is negative or the padding length is negative or above 189 |
| `ConsoleWidth.PaddingIsTrailing` | ReplacingLogger/ReplacingLogger.cs:237-244 | the result is a prefix of the message, or the message followed by spaces |
| `ConsoleWidth.MessageNearWidthFails` | ReplacingLogger/ReplacingLogger.cs:244 | "abcd" at width 4 fails |
| `ConsoleWidth.MessagesNearWidthFail` | ReplacingLogger/ReplacingLogger.cs:244 | every message ending within three columns of the width fails |
| `ConsoleWidth.WideConsoleFails` | ReplacingLogger/ReplacingLogger.cs:242-244 | at width 200 an empty message needs more spaces than the constant holds |
| `ConsoleWidth.CoerceToConsoleWidthClamped` | ReplacingLogger/ReplacingLogger.cs:233-245 | never wider than the window; cut like the original, else the message padded with spaces to max(its length, width-3) |
| `ConsoleWidth.ClampedAgrees` | ReplacingLogger/ReplacingLogger.cs:233-245 | wherever the original succeeds, the corrected version gives the same line |

## Left out

- The redraw thread (`LoggingThreadProc`), `Shutdown`, and `FlushWarningsErrorsAndMessages`: terminal I/O, sleeping and a rendering library. `TryDequeue` and `CoerceToConsoleWidth`, which they call, are modelled.
- Concurrency: handlers run on build-engine threads over `ConcurrentDictionary`, `ConcurrentQueue` and unsynchronised collections. Here each handler is one atomic step, and events arrive in one sequence.
- `NodeState`'s `Path` and `Disambiguator` fields and its Spectre.Console rendering. No handler writes them; a slot is only its `Project` and `Target` strings.
- MSBuild event-argument classes and event subscription: events are the plain records of `Events.Event`. `ProjectFinished` carries no fields, because its handler reads none.
- `Parameters`, `Verbosity`, and the default `NodeCount` of 1 used by the one-argument `Initialize`. `Logger.Initialize` takes the node count.
- A `null` `GlobalProperties` on a project-started event, which would throw in the `Project` constructor. Properties are always a sequence here.
- The enumeration order of the phase-one dictionary: the model uses first-seen order, and no property depends on the order of a label's entries.
- Disambiguation.DisambiguateLabels: requires every member's property list to be duplicate-free. The list is built from a dictionary's pairs, and distinct keys give distinct strings (`Projects.FormatProperties`). The invariant therefore asks every project-started event for distinct keys without '=' (`Invariant.WellFormedProperties`).
- ConsoleWidth.CoerceToConsoleWidth: string lengths count Unicode scalar values, where C# `Length` and `Substring` count UTF-16 code units. The two differ for characters outside the Basic Multilingual Plane. For "😀" at width 1, C# cuts to one code unit, a lone surrogate, while the model fails the padding. Messages are modelled as Dafny strings, not as UTF-16 code units.
- Scenarios.DebugReleaseLabelled: stated for any valid state that has not seen "app.proj" or instances 1 and 2. A freshly initialized logger is one (`Scenarios.FreshLoggerHasSeenNothing`). Unfolding the handlers on a literal initial state is not part of the proof.

## Findings

| source | as written | input that shows it | evidently intended | confidence | as-written member | corrected member |
|---|---|---|---|---|---|---|
| ReplacingLogger/ReplacingLogger.cs:244 | pads with `width - length - 3` spaces even when that is negative, so `Substring` throws | message "abcd", width 4 (any message within three columns of the width) | pad by `max(0, width - length - 3)` | not executed | `ConsoleWidth.MessagesNearWidthFail` | `ConsoleWidth.CoerceToConsoleWidthClamped` |
| ReplacingLogger/ReplacingLogger.cs:242-244 | cuts the padding from a fixed 189-space constant, so `Substring` throws for more than 189 | message "", width 200 | pad with as many spaces as the width needs | not executed | `ConsoleWidth.WideConsoleFails` | `ConsoleWidth.CoerceToConsoleWidthClamped` |

`ConsoleWidth.ClampedAgrees` shows that the corrected function changes nothing
where the original succeeds. The function's only caller,
`FlushWarningsErrorsAndMessages`, is itself never called (line 221 is commented
out), so neither defect shows up in a build.
