# Synesthesia Machine: a Dafny model of its hard parts

The project models the cores of the Synesthesia Machine and proves what each is for.

- **The graph compiler.** `PortNames`, `NodeContracts` (what a node declares), `TypeGroups` (the mutable union-find of
  type variables), `GraphModel`, `TypeInference`, `Ordering`, `Clocks`, `Validation`, `Analysis`, `Plans` and `Compiler`
  follow the pipeline of `graph/compiler.py`. Validity (`Validation.Valid`) and soundness of a plan (`Plans.Sound`,
  `Plans.Covers`) are said without algorithms; every stage is a method proved to report exactly what it must, and the
  compiler is proved to end with a sound plan on every snapshot. `Isolation` proves what partial compilation is for: a
  self-contained part that is valid by itself is analyzed as if it stood alone, so it is planned unchanged whatever is
  broken around it. `SpareSockets` says for which registries that needs nothing more than validity.
- **Randomized graphs.** `Renaming` shows that validity does not depend on ids; `RandomGraph` uses it for the
  replacement fallback that is never revalidated.
- **The MIDI output session.** `MidiState` (diff, reconciliation, what a device sounds after a message trace),
  `MidiBackend` (every call to the backend with its answer, and what is in doubt), `MidiDevice`, `MidiPanic`,
  `MidiApply` and `MidiRecovery` (what a panic, an application of a state and a failing call leave behind), `MidiOrder`
  and `MidiSession` (what the session promises about published states and panics), `MidiOutput` (the session as a class,
  one method per atomic step, run under every interleaving of callers and sender) and `MidiRuns` (particular sessions).
- **Graph data** (`Literals`, `Schemas`, `GraphData`): the literal codec, the four schema migrations and the round trip
  of documents through their persisted form.
- **The latest-frame mailbox** (`Mailbox`), **the debug synth's voice pool** (`Voices`, `Synth`), **the loop boundary of the
  video source** (`RegionPass`, `LoopPass`, `LoopHead`), **the Standard MIDI File encoder** (`Smf`, against an
  independent reader) and **longest-path tidying** (`Layout`).

`Common`, `Reach` and `Sorting` hold shared vocabulary: options, sorted ids, filtering, walks, cycles and equivalence
closures, and a stable sort.

## How the model is set up

- A UUID is a number: its text has a fixed width, so sorting by text is sorting by number.
- A definition is a `Contract` record with an `evaluate` function for its parameters. The registry hypotheses
  (`NodeContracts.WellFormed`) are what the definitions enforce on construction, with two that the compiler relies on:
  an array type variable lists a non-empty set of element types, and a connectable parameter has a socket type.
- Random draws are arguments, so a result holds for every generator. Fresh ids are the one hypothesis about them.
- Threads are atomic steps. A publication is two of them, since the source compares with the watermark before it takes
  the lock: `CheckState`, and later `StoreState`. Applying one state is one step. A send that raises may or may not have
  been delivered. `checked` and `stored` count the panics requested by then, and `stamp` and `now` count stored states,
  so that "stored after" can be said.
- The MIDI backend is a function from the number of a call to its answer, so a result holds for every backend, however
  it behaves. Every call is logged with its answer (`log`), and what reached the devices (`Wire`), what raised
  (`Faults`) and what is in doubt (`DoubtOf`) are functions of that log.
- A channel of a MIDI device is *in doubt* from the moment an all-notes-off to it raised until one to it does not.
  Everywhere else, at every moment of a run, exactly the recorded notes sound. A note-off that raises does no harm: the
  all-notes-off behind it does the work.
- The MIDI file model takes times in whole microseconds; reals stand for the synth's and the layout's floats.

## Where the code and its description differ

- A valid snapshot whose only fault is an unknown requested root is not always planned whole: the reduction drops a node
  for any port without a type, also for a spare variadic socket nothing is connected to. It cannot happen while no
  definition has both a variadic family and a type resolver (`SpareSockets.ValidMeansEveryPortSettled`); then
  `Compiler.Compile` plans exactly the valid snapshots whole and keeps every self-contained valid part. No shipped
  definition has both. `SpareSockets.ResolverLeavesSpareUnsettled` is a snapshot, with a definition that has, for which
  it happens.
- A type declaration made after its variable was joined under another root is lost; the compiler declares everything
  before it joins anything. `TypeGroups.Groups.Add` states exactly when a declaration counts.
- The mailbox is described as having two slots a source, one frame executing and one waiting. A source that ended and
  started again can wait with two (`Mailbox.TwoFramesCanWait`); what holds is one frame more than resets waiting
  (`Mailbox.FewFramesWait`).
- An exported MIDI event is never late. It is *early* by the intervals shorter than 31 microseconds before it, which
  collapse to nothing: `Smf.EarlyByCollapsedIntervals`, with the exact condition for playing on time in
  `Smf.OnTimeIffNoShortInterval` and an input in `Smf.ShortIntervalPlaysEarly`. The module text promises the true time.
- Encoding a non-negative duration raises exactly when some interval leaves a remainder above 17 476 ticks, or the track
  reaches 2^32 bytes. Up to 30 534 048 microseconds no interval does (`Smf.ShortIntervalsFit`), above 339 379 214 every
  one (`Smf.LongestInterval`), and in between it depends on the remainder (`Smf.SomeLongIntervalDoesNotFit`).
- A panic whose sends all succeed, or a close, may leave a note sounding. It tells the channels used since the port was
  opened, and not one on which an earlier all-notes-off raised before the port was lost: `MidiRuns.StuckAfterReopening`
  is such a session. Whatever was delivered before, such a panic leaves the device silent exactly if it tells every
  channel in doubt (`MidiDevice.SilenceIffDoubtTold`).
- A state may be applied, and sound, while a panic is outstanding: `MidiRuns.LateApplication`, during a refresh. It is so
  exactly if a panic has been requested since the sender picked the state or the refresh
  (`MidiOrder.OutstandingIffRequestedSincePick`); none is picked with a panic outstanding.
- A state at or below the watermark is meant never to re-arm the port. One that was compared with the watermark before
  the panic and stored after its completion does (`MidiRuns.OvertakenApplication`). No other can:
  `MidiOrder.StaleOnlyIfOvertaken`.
- The migrations compare ids as they are written, and reading takes spellings of one id as equal. A connection that
  spells the id of a removed node otherwise than the node does is kept and dangles
  (`Schemas.OtherSpellingDangles`). Where every end is spelled as the nodes it names, migration leaves nothing dangling
  that did not dangle before (`Schemas.NoNewDangling`).

## Model

| member | source | states |
|---|---|---|
| PortNames.IndexOfMember | src/synesthesia_machine/nodes/base.py:102-114 | the index of the member built for an index is that index |
| PortNames.MemberOfIndex | src/synesthesia_machine/nodes/base.py:102-114 | a port id that has an index is the one spelling of that member, so no two sockets share an index |
| NodeContracts.NextFree | src/synesthesia_machine/nodes/base.py:685-706 | the next socket is the least index from the start on that no connection uses |
| NodeContracts.ConnectedInputsAreListed | src/synesthesia_machine/nodes/base.py:678-706 | a connected input, fixed or variadic, is always among the effective inputs |
| NodeContracts.ListedInputsExist | src/synesthesia_machine/nodes/base.py:678-706 | effective inputs are declared inputs, and the spare socket only adds |
| NodeContracts.EffectiveInputs | src/synesthesia_machine/nodes/base.py:678-706 | the effective inputs are the fixed ones, the family's first ones up to its minimum and its connected ones; the spare socket is at the first unconnected index and only there once the minimum is connected |
| NodeContracts.PortTypeIsDeclared | src/synesthesia_machine/nodes/base.py:739-752 | without a resolver a port has the type it is declared with, and a member of a family that of the family |
| NodeContracts.PortTypeIsResolved | src/synesthesia_machine/nodes/base.py:739-752 | with one it has what the resolver says for the port, its side and the parameters |
| NodeContracts.SocketTypeIsDeclared | src/synesthesia_machine/graph/compiler.py:634-662 | a connectable parameter's socket has the type the parameter declares |
| GraphModel.GraphOfIsWellFormed | src/synesthesia_machine/graph/compiler.py:361-389 | the graph built from any snapshot, however broken, has contracts and connections that fit together |
| GraphModel.FirstNodesAreFirst | src/synesthesia_machine/graph/compiler.py:471-491 | of the nodes with one id the graph has the first |
| GraphModel.FirstConnectionsAreFirst | src/synesthesia_machine/graph/compiler.py:526-592 | of the connections with one id the graph considers the first |
| GraphModel.EndsAreChecked | src/synesthesia_machine/graph/compiler.py:614-736 | both ends of an accepted connection are ports of the type table, so no lookup can miss |
| GraphModel.ExpressionsAreBounded | src/synesthesia_machine/graph/compiler.py:978-986 | an array variable in the table only admits element types |
| TypeGroups.KeyOrder | src/synesthesia_machine/graph/compiler.py:118-137 | the key order that decides which root survives is total |
| TypeGroups.CompressionKeepsRoots | src/synesthesia_machine/graph/compiler.py:111-116 | pointing a key at its root changes no root and keeps every parent below its child |
| TypeGroups.UnionMatches | src/synesthesia_machine/graph/compiler.py:118-137 | if roots agree with the equivalence closure of the links, they still do after attaching one root to the other and adding the link |
| TypeGroups.MergeKeepsConsistency | src/synesthesia_machine/graph/compiler.py:118-137 | the merged tables are the summaries of the united class: candidates and defaults united, allowed sets intersected |
| TypeGroups.RootMeaning | src/synesthesia_machine/graph/compiler.py:142-167 | the tables at a key's root give the declarative meaning and clash of the key |
| TypeGroups.MeaningIs | src/synesthesia_machine/graph/compiler.py:142-158 | a class settles to the one type proposed, to Float if Int and Float both were, to its one default if nothing was, each time only if every allowed set admits all that was proposed, or the default; in every other case it does not settle |
| TypeGroups.ClashIs | src/synesthesia_machine/graph/compiler.py:160-167 | clashing are the proposed types that some allowed set excludes, or if there are none all of several that are not just Int and Float |
| TypeGroups.SettledTypeIsAllowed | src/synesthesia_machine/graph/compiler.py:142-167 | a settled type, widening to Float included, lies in every allowed set of its class, and then nothing clashes |
| TypeGroups.Groups.constructor | src/synesthesia_machine/graph/compiler.py:88-95 | nothing is declared, linked or proposed |
| TypeGroups.Groups.Add | src/synesthesia_machine/graph/compiler.py:97-109 | the facts gain the variable, its bound and its default if it is new or its own root, and nothing otherwise |
| TypeGroups.Groups.Find | src/synesthesia_machine/graph/compiler.py:111-116 | it ends, returns the root, and compression moves no root |
| TypeGroups.Groups.Union | src/synesthesia_machine/graph/compiler.py:118-137 | the facts gain exactly the link |
| TypeGroups.Groups.Constrain | src/synesthesia_machine/graph/compiler.py:139-140 | the facts gain exactly the proposed type |
| TypeGroups.Groups.Resolve | src/synesthesia_machine/graph/compiler.py:142-158 | the result is the meaning of the key in the facts (`MeaningIs`), whatever the order of the calls that made them |
| TypeGroups.Groups.IncompatibleCandidates | src/synesthesia_machine/graph/compiler.py:160-167 | the result is the clash of the key in the facts (`ClashIs`) |
| TypeInference.SettledArrayHasType | src/synesthesia_machine/graph/compiler.py:978-986 | an array variable that settles settles to an element type: forming its array type never raises |
| TypeInference.DeclareVariables | src/synesthesia_machine/graph/compiler.py:634-662 | the groups hold exactly the declarations of the table |
| TypeInference.ApplyConnections | src/synesthesia_machine/graph/compiler.py:663-690 | the groups hold exactly the links and proposals of the connections, independent of their order |
| TypeInference.SettlePorts | src/synesthesia_machine/graph/compiler.py:691-717 | every port gets its meaning, and exactly the checked ports without one are reported, as conflict or as unresolved |
| TypeInference.CheckCompatibility | src/synesthesia_machine/graph/compiler.py:718-736 | exactly the connections whose settled ends do not fit are reported |
| TypeInference.MisfitCases | src/synesthesia_machine/graph/compiler.py:663-736 | once both ends have settled: into a variable any fixed type fits; out of one into a fixed type only Float into Int does not; an array fits nothing but an array; two fixed types fit if equal, Int into Float, or an element into its array |
| TypeInference.OneProposalSettles | src/synesthesia_machine/graph/compiler.py:663-717 | a variable proposed one admitted type, by one connection, settles to it, an array variable to the array of it |
| TypeInference.DefaultApplies | src/synesthesia_machine/graph/compiler.py:634-717 | a variable with a default that nothing is connected to settles to it |
| TypeInference.ResolveTypes | src/synesthesia_machine/graph/compiler.py:614-736 | types and reports of the whole stage are functions of the table and the set of connections only |
| Ordering.GreedyIsLexLeast | src/synesthesia_machine/graph/compiler.py:739-768 | the greedy order extends or precedes lexicographically every other topological order |
| Ordering.GreedyIsUnique | src/synesthesia_machine/graph/compiler.py:739-768 | there is one greedy order, so the result does not depend on the order of connections |
| Ordering.BackwardWalkMeetsCycle | src/synesthesia_machine/graph/compiler.py:739-768 | in a finite set where every node has a predecessor, each node lies on or behind a cycle |
| Ordering.LeftOutIffTainted | src/synesthesia_machine/graph/compiler.py:739-768 | a node is missing from the order iff it is on a cycle or reachable from one |
| Ordering.AcyclicIffUntainted | src/synesthesia_machine/graph/compiler.py:739-768 | the graph has no cycle iff no node is on or behind one |
| Ordering.CountEdges | src/synesthesia_machine/graph/compiler.py:744-753 | outgoing sets and indegrees count every edge once, however many connections repeat it |
| Ordering.Advance | src/synesthesia_machine/graph/compiler.py:754-763 | one turn takes the least available node and releases exactly its successors |
| Ordering.TopologicalOrder | src/synesthesia_machine/graph/compiler.py:739-768 | the order is the greedy one, and exactly the nodes on or behind a cycle are reported |
| Clocks.FeedsByPredecessor | src/synesthesia_machine/graph/compiler.py:814-847 | a source feeds a node iff it is or feeds one of the node's predecessors |
| Clocks.IncomingAreFeeders | src/synesthesia_machine/graph/compiler.py:814-847 | once the predecessors' clocks are exact, the incoming clocks are exactly the sources feeding the node |
| Clocks.GenuineIncoming | src/synesthesia_machine/graph/compiler.py:814-847 | even after a conflict elsewhere every clock met at a node is a source feeding it, so a reported node is fed by two |
| Clocks.ClockStep | src/synesthesia_machine/graph/compiler.py:814-847 | the local rule gives a node its unique clock iff no two sources feed it |
| Clocks.AnalyzeClocks | src/synesthesia_machine/graph/compiler.py:814-847 | every clock is the one the predecessors have, if that is one, and reported are exactly the nodes where different ones meet; there is such a node iff two sources feed one node through non-sources, and else every clock is the unique feeding source |
| Clocks.UpstreamReachable | src/synesthesia_machine/graph/compiler.py:875-889 | the least predecessor-closed set containing the roots |
| Validation.Duplicates | src/synesthesia_machine/graph/compiler.py:471-491 | exactly the ids occurring more than once |
| Validation.UniqueNodes | src/synesthesia_machine/graph/compiler.py:471-491 | the first node of every id is kept and exactly the repeated ids are reported |
| Validation.UniqueIffNoDuplicates | src/synesthesia_machine/graph/compiler.py:471-491 | ids are unique iff there is no duplicate to report |
| Validation.ResolveDefinitions | src/synesthesia_machine/graph/compiler.py:493-524 | exactly unknown types, other versions and bad parameters are reported |
| Validation.CheckConnection | src/synesthesia_machine/graph/compiler.py:526-592 | a connection is accepted iff both its ports exist; otherwise exactly one fault is named |
| Validation.ValidateConnections | src/synesthesia_machine/graph/compiler.py:526-592 | the accepted connections are the wired first ones of each id, and exactly the others are reported |
| Validation.ValidateCardinality | src/synesthesia_machine/graph/compiler.py:594-611 | exactly the inputs with two or more connections are reported |
| Validation.ValidateRequiredInputs | src/synesthesia_machine/graph/compiler.py:771-811 | exactly the unconnected required inputs and the families below their minimum are reported |
| Validation.MissingMeansTooFew | src/synesthesia_machine/graph/compiler.py:771-811 | a family is reported iff fewer connections than its minimum enter its sockets, whichever these are, and any other required input iff no connection enters it |
| Analysis.ConnectionsWired | src/synesthesia_machine/graph/compiler.py:526-592 | with unique accepted nodes, no wiring is reported iff every connection is wired |
| Analysis.TypesClean | src/synesthesia_machine/graph/compiler.py:614-736 | no typing is reported iff every checked port settles and every connection fits |
| Analysis.ValidIffClean | src/synesthesia_machine/graph/compiler.py:361-389 | validity is the conjunction of what the stages report nothing about |
| Analysis.AnalyzeGraph | src/synesthesia_machine/graph/compiler.py:361-389 | the graph stages report exactly the faults the graph has, and of the nodes fed by two sources those where the clocks meet; nothing iff the graph's share of validity holds |
| Analysis.FaultIsLocated | src/synesthesia_machine/graph/compiler.py:361-389 | every fault of a snapshot names a node or connection still in it |
| Analysis.Analyze | src/synesthesia_machine/graph/compiler.py:361-389 | reported are exactly the faults of the snapshot, clock conflicts where the clocks meet, and the requested roots that are not there; nothing iff valid with all requested roots present; valid iff no issue names something in the snapshot |
| Isolation.WalkStaysInside | src/synesthesia_machine/graph/compiler.py:614-736 | type variables linked with one of a self-contained part belong to the part |
| Isolation.MeaningCut | src/synesthesia_machine/graph/compiler.py:142-158 | a variable of the part means the same in the part alone |
| Isolation.TypeCut | src/synesthesia_machine/graph/compiler.py:614-736 | a port of the part has the type it has in the part alone |
| Isolation.TaintCut | src/synesthesia_machine/graph/compiler.py:739-768 | a node of the part behind a cycle is behind one inside the part |
| Isolation.FeedsCut | src/synesthesia_machine/graph/compiler.py:814-847 | a source feeding a node of the part feeds it inside the part |
| Isolation.PartIsCut | src/synesthesia_machine/graph/compiler.py:294-329 | the graph of the part is the graph of the whole cut to the part |
| Isolation.FaultsAreElsewhere | src/synesthesia_machine/graph/compiler.py:294-329 | no fault of the whole snapshot names a node or connection of a self-contained valid part |
| Plans.ValidMeansSettled | src/synesthesia_machine/graph/compiler.py:170-184 | in a valid graph the settled type of every port a plan reads exists |
| Plans.BuildPlan | src/synesthesia_machine/graph/compiler.py:267-292 | one compiled node per ordered node, with the analyzed types, clock and demand |
| Plans.WriterComesFirst | src/synesthesia_machine/graph/compiler.py:892-943 | the source of every connection is compiled at an earlier position |
| Plans.PlanBindingsSound | src/synesthesia_machine/graph/compiler.py:892-943 | every binding reads a declared output of an earlier node of compatible type, converting exactly an Int read as Float |
| Plans.PlanSupplied | src/synesthesia_machine/graph/compiler.py:771-811 | every required input is bound and every family has its minimum |
| Plans.PlanClockSound | src/synesthesia_machine/graph/compiler.py:814-847 | a node's clock is that of whatever it reads that has one, and comes from something it reads |
| Plans.PlanDemandSound | src/synesthesia_machine/graph/compiler.py:875-889 | the demanded nodes are the least set closed under the plan's own bindings that contains the roots |
| Plans.SettledPortHasType | src/synesthesia_machine/graph/compiler.py:691-717 | a settled port has the type its declaration asks for under one assignment of the node's variables, arrays of them included, and inside the allowed set |
| Plans.PlanTypesSound | src/synesthesia_machine/graph/compiler.py:892-943 | a compiled node types exactly its outputs and effective inputs, as declared, and is static iff it has no clock and may be cached |
| Plans.PlanIsSound | src/synesthesia_machine/graph/compiler.py:267-292 | a plan of a clean analysis has all of these and distinct nodes; every input and output has the type it declares, with one type per type variable of the node, inside its allowed set; a node is static iff unclocked and not excluded from caching |
| Plans.PlanCovers | src/synesthesia_machine/graph/compiler.py:267-292 | it has exactly the snapshot's nodes with their contracts and parameters, and exactly one binding per connection; types and staticness of each node are part of soundness |
| Compiler.ReducedSnapshot | src/synesthesia_machine/graph/compiler.py:294-329 | left out are exactly the nodes an issue names or one of whose ports has no type, the connections an issue names and those of the nodes left out; the rest keeps its order; a strictly smaller part, or none iff nothing is left to drop |
| Compiler.WhatIssuesName | src/synesthesia_machine/graph/compiler.py:306-315 | which kinds of issue name a node, and which a connection |
| Compiler.TrailExplainsLosses | src/synesthesia_machine/graph/compiler.py:229-265 | every node and every connection of the first part that is not kept was blamed in a round it was still there for |
| Compiler.AnalysisSpares | src/synesthesia_machine/graph/compiler.py:294-329 | an analysis marks nothing of a sheltered part for dropping |
| Compiler.ReductionShelters | src/synesthesia_machine/graph/compiler.py:294-329 | reduction leaves a sheltered part as it was, and sheltered |
| Compiler.Attempt | src/synesthesia_machine/graph/compiler.py:212-265 | a plan iff the part is valid with its roots, and then a sound and covering one |
| Compiler.CompileRemainder | src/synesthesia_machine/graph/compiler.py:229-265 | the reduce-and-revalidate loop ends, always with a plan for a valid part that still has every sheltered part, reached by rounds each of which left out exactly what its report blames |
| Compiler.PlanRoots | src/synesthesia_machine/graph/compiler.py:849-877 | the roots are the requested nodes kept; without a request the sinks and visualizers kept, or if there are none the nodes nothing reads from |
| SpareSockets.SpareIsLikeFirst | src/synesthesia_machine/nodes/base.py:739-757 | without a resolver a spare socket has the declared type of the first socket of its family, which is always checked |
| SpareSockets.ValidMeansEveryPortSettled | src/synesthesia_machine/graph/compiler.py:294-329 | where no definition has both a family and a resolver, every port of a valid snapshot has a type, spare sockets included |
| SpareSockets.ResolverLeavesSpareUnsettled | src/synesthesia_machine/graph/compiler.py:294-329 | a valid snapshot with a definition that has both, whose spare socket has no type |
| Compiler.PlainPartsKept | src/synesthesia_machine/graph/compiler.py:294-329 | without such a definition self-contained valid parts are kept under no further condition |
| Compiler.Compile | src/synesthesia_machine/graph/compiler.py:212-265 | for every snapshot and root set: the report is exactly the faults of the snapshot; a sound plan covering a valid part, with the roots named; what is not planned was left out round by round, exactly what was reported of the part then or had no type, and every loss is explained so; unless a definition has both a family and a resolver, every self-contained valid part is planned unchanged and the snapshot is planned whole iff it is valid; in general both hold with the spare sockets settled as well |
| Renaming.MeaningRenamed | src/synesthesia_machine/graph/random_graph.py:428-457 | type meanings survive a renaming although the union-find compares ids |
| Renaming.TypeRenamed | src/synesthesia_machine/graph/random_graph.py:428-457 | every port keeps its type |
| Renaming.GraphValidRenamed | src/synesthesia_machine/graph/random_graph.py:428-457 | a graph and its renaming are valid together |
| Renaming.ValidRenamed | src/synesthesia_machine/graph/random_graph.py:428-457 | a snapshot is valid iff its renaming is |
| RandomGraph.FallbackRenames | src/synesthesia_machine/graph/random_graph.py:428-457 | replacing nodes by copies with fresh ids, connections touched getting fresh ids too, is a renaming |
| RandomGraph.FallbackIsValid | src/synesthesia_machine/graph/random_graph.py:428-457 | so the fallback result is valid without being validated |
| RandomGraph.ReplacementIdsAreOutside | src/synesthesia_machine/graph/random_graph.py:373-457 | replacements never take the id of a node that stays |
| RandomGraph.ReplacedIds | src/synesthesia_machine/graph/random_graph.py:373-457 | replacing exchanges exactly the selected ids for the new ones |
| RandomGraph.WhatReplacingDoes | src/synesthesia_machine/graph/random_graph.py:373-457 | a node or connection away from the selection stays as it is; a replaced node is what was picked for it under its new id; a connection keeps its ports and its other end |
| RandomGraph.RandomizeParameters | src/synesthesia_machine/graph/random_graph.py:242-266 | the first draw that changes something and leaves a valid graph valid is taken, and the graph stays as it is if there is none; only literals of selected nodes change |
| RandomGraph.ReplaceNodeSet | src/synesthesia_machine/graph/random_graph.py:373-457 | the first valid attempt, or else the fallback: a valid graph of exactly the unselected nodes, unchanged with the connections between them, and the replacements |
| RandomGraph.TryEdits | src/synesthesia_machine/graph/random_graph.py:482-653 | the first candidate that may be proposed and whose result is valid is accepted, none iff there is no such |
| RandomGraph.EditKeepsSurroundings | src/synesthesia_machine/graph/random_graph.py:482-653 | no accepted change touches a node outside the selection or a connection between two of them |
| RandomGraph.EditReconnects | src/synesthesia_machine/graph/random_graph.py:482-653 | an inserted node reads what the cut connection read and is read where that was; the readers of a bypassed node read what it read |
| RandomGraph.EditKeepsIds | src/synesthesia_machine/graph/random_graph.py:482-653 | a change adds or removes exactly one replacement and never the last |
| RandomGraph.RandomizeNodes | src/synesthesia_machine/graph/random_graph.py:188-239 | it fails exactly on an unknown selection or an invalid graph; else the result is valid and consists of exactly the unselected nodes, unchanged with the connections between them, and at least one replacement |
| MidiState.Lacking | src/synesthesia_machine/midi/state_diff.py:34-54 | exactly the keys of one state that the other lacks, in the first one's order |
| MidiState.ScriptMembers | src/synesthesia_machine/midi/output_service.py:662-693 | exactly the leaving and retriggered keys get a note-off; exactly the entering and restruck ones a note-on |
| MidiState.MessagesForKey | src/synesthesia_machine/midi/output_service.py:662-693 | a leaving key gets a note-off, an entering one a note-on; a held one gets nothing if its velocity is equal or moved by less than the threshold, and otherwise nothing, a note-off and a note-on, or a note-on, as the policy says |
| MidiState.MessagesInOrder | src/synesthesia_machine/midi/output_service.py:672-693 | note-offs in the order held; note-ons for struck keys in that order and then for entering keys in the order desired |
| MidiState.ScriptReachesTarget | src/synesthesia_machine/midi/output_service.py:694-704 | sending the note-offs and then the note-ons leaves exactly the target velocities |
| MidiState.ScriptOrder | src/synesthesia_machine/midi/output_service.py:694-704 | the keys held afterwards are those that stayed, in their order, and then those struck, in theirs |
| MidiState.TargetMeetsDesired | src/synesthesia_machine/midi/output_service.py:662-704 | the target has exactly the desired keys; held velocities stay under IGNORE_WHILE_HELD and otherwise end equal to or within the threshold of the desired ones |
| MidiState.ReconcileIsIdempotent | src/synesthesia_machine/midi/output_service.py:662-704 | reconciling the same desired state again sends nothing |
| MidiBackend.DoubtIffLastRaised | src/synesthesia_machine/midi/output_service.py:754-768 | a channel is in doubt by the log iff the last all-notes-off sent to it raised |
| MidiBackend.GrowingLog | src/synesthesia_machine/midi/output_service.py:706-715 | as calls are added to the log, the messages delivered and the faults only grow |
| MidiBackend.SentWithoutFault | src/synesthesia_machine/midi/output_service.py:706-715 | if none of a run of messages raises all of them arrive, in order, and no channel comes into doubt |
| MidiDevice.OffStep | src/synesthesia_machine/midi/output_service.py:694-698 | after a delivered note-off exactly the recorded keys sound outside doubt |
| MidiDevice.OnStep | src/synesthesia_machine/midi/output_service.py:699-704 | the same after a note-on |
| MidiDevice.DoubtfulStep | src/synesthesia_machine/midi/output_service.py:706-715 | after a note message of unknown delivery only its own channel may sound beyond the recorded keys |
| MidiDevice.AllOffOnSilence | src/synesthesia_machine/midi/output_service.py:639-660 | the all-notes-off sent on opening, delivered or not, keeps a silent device silent, and if it raises leaves only its channel in doubt |
| MidiDevice.AllOffConfined | src/synesthesia_machine/midi/output_service.py:762-768 | a delivered all-notes-off takes its channel out of what may sound, a raised one puts it in doubt |
| MidiDevice.PanickedSounding | src/synesthesia_machine/midi/output_service.py:754-768 | after the note-offs and all-notes-offs of a panic exactly the untold keys on untold channels sound on |
| MidiDevice.SilenceIffDoubtTold | src/synesthesia_machine/midi/output_service.py:737-777 | a panic whose sends all succeed silences the device, whatever was delivered before, iff it tells every channel in doubt |
| MidiDevice.UntoldDoubtSounds | src/synesthesia_machine/midi/output_service.py:737-777 | for every channel in doubt that is not told there is a history with which the device sounds on |
| MidiPanic.PanicSettles | src/synesthesia_machine/midi/output_service.py:737-777 | a panic, whichever of its sends raise: of the channels told exactly those whose all-notes-off raised are in doubt, nothing sounds on the others, nothing new sounds anywhere, and outside doubt nothing sounds at all; if none raised exactly the told keys and channels stopped |
| MidiPanic.SilentIffAllTold | src/synesthesia_machine/midi/output_service.py:737-777 | if none of its sends raised no told channel is in doubt, and the device is silent iff nothing but the told keys and channels sounded |
| MidiPanic.FailureIsSettled | src/synesthesia_machine/midi/output_service.py:717-724 | after a message that raised, delivered or not, and the recovery: nothing sounds outside doubt, exactly the channels told whose own all-notes-off raised in the recovery have come into doubt, and nothing sounds on the others |
| MidiApply.OutcomeHolds | src/synesthesia_machine/midi/output_service.py:612-637 | an application only adds to the log and ends with the selected port holding exactly the desired keys or with no port; if no call raised, with the first iff that port was open or is listed |
| MidiRecovery.OneFaultIsRecovered | src/synesthesia_machine/midi/output_service.py:612-724 | if a state is given up because one call raised, whichever it was and whether or not it arrived, and all calls of the recovery succeeded, no channel has come into doubt and nothing sounds on the channels in use |
| MidiOrder.StaleOnlyIfOvertaken | src/synesthesia_machine/midi/output_service.py:438-452 | a completed panic that makes an applied state stale was requested between the state's check and its storing; an uninterrupted publication is stale for none |
| MidiOrder.OutstandingIffRequestedSincePick | src/synesthesia_machine/midi/output_service.py:536-562 | a state is applied with a panic outstanding iff one was requested since the sender's pick, and then with the application in flight |
| MidiOrder.FreshIsChecked | src/synesthesia_machine/midi/state_ordering.py:42-53 | what is not stale for the watermark is stale for no panic requested so far |
| MidiOrder.CurrentIsAbove | src/synesthesia_machine/midi/state_ordering.py:42-53 | the generation of an applied state is 0 or above that of each panic requested before its check |
| MidiOrder.ResolvedPort | src/synesthesia_machine/midi/output_service.py:823-832 | a name that is no port's id stands for the only port displayed under it, and for itself if none or several are |
| MidiSession.PanicRequested | src/synesthesia_machine/midi/state_ordering.py:42-53 | raising the watermark and emptying the mailbox keeps the session's promises, also for publications under way |
| MidiSession.Picking | src/synesthesia_machine/midi/output_service.py:536-562 | picking the pending state or a refresh with no panic outstanding keeps the promises |
| MidiSession.Completing | src/synesthesia_machine/midi/output_service.py:577-585 | so does completing a panic, which empties the mailbox |
| MidiSession.Applying | src/synesthesia_machine/midi/output_service.py:586-588 | so does applying the picked state, whether it ends up held or given up |
| MidiOutput.MidiOutputService.constructor | src/synesthesia_machine/midi/output_service.py:393-436 | for any backend the session starts with no call made, nothing recorded and valid |
| MidiOutput.MidiOutputService.PublishState | src/synesthesia_machine/midi/output_service.py:438-452 | uninterrupted: a state of a generation from 1 to the watermark is ignored; a closing service refuses any other, and otherwise both slots hold it and a replaced one counts as dropped |
| MidiOutput.MidiOutputService.CheckState | src/synesthesia_machine/midi/output_service.py:438-445 | a state of a generation from 1 to the watermark is ignored; any other is on its way, unstale for every panic requested so far |
| MidiOutput.MidiOutputService.StoreState | src/synesthesia_machine/midi/output_service.py:446-452 | whatever happened since the check: a closing service refuses, and otherwise both slots hold the state and a replaced one counts as dropped |
| MidiOutput.MidiOutputService.Panic | src/synesthesia_machine/midi/output_service.py:454-479 | the mailbox is emptied and the request recorded; a negative generation raises after emptying |
| MidiOutput.MidiOutputService.CloseService | src/synesthesia_machine/midi/output_service.py:518-524 | the service is closing and its mailbox empty |
| MidiOutput.MidiOutputService.PickAction | src/synesthesia_machine/midi/output_service.py:536-562 | close before panic before refresh before state; exactly a pick of one of the last two is remembered, and it is made with no panic outstanding |
| MidiOutput.MidiOutputService.SendPanic | src/synesthesia_machine/midi/output_service.py:569-576 | exactly what was recorded is told to stop, in order, whatever raises; nothing sounds outside doubt, of the told channels exactly those whose all-notes-off raised are in doubt and the others are silent; the port stays open iff nothing raised |
| MidiOutput.MidiOutputService.CompletePanic | src/synesthesia_machine/midi/output_service.py:577-585 | completion empties the mailbox, so nothing published meanwhile survives |
| MidiOutput.MidiOutputService.ApplyPicked | src/synesthesia_machine/midi/output_service.py:586-588 | the picked state is applied call by call as for ApplyDesired; the application is remembered with the panics requested at the pick and requested and completed by now, and nothing that the promises of the session rest on is lost |
| MidiOutput.MidiOutputService.ListPorts | src/synesthesia_machine/midi/output_service.py:589-590 | the ports listed are the backend's; a refresh keeps what is open if it is listed, and otherwise tells it to be silent and closes it |
| MidiOutput.MidiOutputService.ReadLatest | src/synesthesia_machine/midi/output_service.py:591-595 | exactly a state the mailbox still remembers is applied again |
| MidiOutput.MidiOutputService.StopSender | src/synesthesia_machine/midi/output_service.py:564-568 | the port is closed, and as for a panic exactly what was recorded is told to stop, whatever raises |
| MidiOutput.MidiOutputService.ApplyDesired | src/synesthesia_machine/midi/output_service.py:612-637 | call by call, whatever raises: another port is told to be silent and left, the selected one opened if it is listed and not open, and reconciled, or given up at the first call that raises, with the recovery; the mailbox is emptied iff a message to the selected port raised, and not if opening did |
| MidiOutput.MidiOutputService.OpenExactPort | src/synesthesia_machine/midi/output_service.py:639-660 | the calls are the opening and then all notes off on the desired channels in order, up to the first that raises, which the recovery follows |
| MidiOutput.MidiOutputService.Reconcile | src/synesthesia_machine/midi/output_service.py:662-704 | if no send raises exactly the note-offs and then the note-ons went out and the target is recorded; otherwise exactly those up to the first that raised, and then the recovery for what was held by then |
| MidiOutput.MidiOutputService.HandleSendFailure | src/synesthesia_machine/midi/output_service.py:717-724 | the mailbox is forgotten, the port closed, and exactly the panic for what was recorded and the failing channel was sent, with its exact effect on doubt and sound, whichever of its sends raise |
| MidiOutput.MidiOutputService.SendOrFail | src/synesthesia_machine/midi/output_service.py:706-724 | a message that does not raise is one call and changes nothing else; one that does, delivered or not, is followed by exactly the recovery |
| MidiOutput.MidiOutputService.PanicCurrent | src/synesthesia_machine/midi/output_service.py:737-777 | nothing stays recorded, the port closes on request or error; the calls made are exactly note-offs for the recorded keys and all notes off on the channels used and added, in order; of these channels exactly those whose all-notes-off raised are in doubt, and nothing sounds outside doubt |
| MidiOutput.MidiOutputService.SilenceDevice | src/synesthesia_machine/midi/output_service.py:754-768 | exactly the note-offs and then all notes off on the channels, in order, none left out because another raised; it fails iff something raised |
| MidiOutput.MidiOutputService.RefreshPortNames | src/synesthesia_machine/midi/output_service.py:779-821 | after the listing, exactly a panic for what was recorded if the open port is not listed or the listing raised, which also forgets the mailbox |
| MidiOutput.MidiOutputService.Run | src/synesthesia_machine/midi/output_service.py:438-598 | over every run and every backend: the log and the history only grow; on every channel not in doubt by the log exactly the recorded notes sound; everything recorded was asked for by a state still current; every applied state was stored after the last completed panic and is stale only for panics requested since its check; a panic was outstanding at an application only if requested since the pick; its generation is 0 or above that of each panic requested before its check |
| MidiOutput.MidiOutputService.Handle | src/synesthesia_machine/midi/output_service.py:438-598 | one step of anybody: only the sender calls the backend, only a panic's last step completes it, only a picked state is applied, and only a request is remembered as one |
| MidiRuns.LateApplication | src/synesthesia_machine/midi/output_service.py:586-595 | a session with a backend that never raises in which a state is applied and sounds with a panic outstanding |
| MidiRuns.OvertakenApplication | src/synesthesia_machine/midi/output_service.py:438-452 | a session with a backend that never raises in which a state that a completed panic made stale is applied and sounds |
| MidiRuns.LostRace | src/synesthesia_machine/midi/output_service.py:438-475 | after a panic a state of its generation or an earlier one publishes nothing |
| MidiRuns.StuckAfterReopening | src/synesthesia_machine/midi/output_service.py:717-777 | a session that loses its port with a note sounding, reopens it for another channel, and whose panic, every send of which succeeds, leaves the note sounding |
| Mailbox.TicksAreSeparated | src/synesthesia_machine/runtime/engine_body.py:302-342 | between two waiting frames of one source a reset of that source is waiting |
| Mailbox.FewFramesWait | src/synesthesia_machine/runtime/engine_body.py:371-393 | a source waits with at most one frame more than it has resets waiting |
| Mailbox.TwoFramesCanWait | src/synesthesia_machine/runtime/engine_body.py:329-342 | a source that ended and started again waits with two frames |
| Mailbox.PublishKeepsQueue | src/synesthesia_machine/runtime/engine_body.py:302-327 | a published frame keeps all frames newest of their epoch and each source in order |
| Mailbox.ResetKeepsQueue | src/synesthesia_machine/runtime/engine_body.py:329-342 | after a reset other than SOURCE_ENDED no older frame of the source waits |
| Mailbox.PlacedAtLast | src/synesthesia_machine/runtime/engine_body.py:308-327 | the frame replaces its source's last waiting frame, or follows its last waiting reset |
| Mailbox.TicksKept | src/synesthesia_machine/runtime/engine_body.py:329-342 | a reset other than SOURCE_ENDED takes out exactly its source's frames |
| Mailbox.ResetLeaves | src/synesthesia_machine/runtime/engine_body.py:329-342 | a hard reset leaves all but its source's frames, in order; the end of a source leaves all |
| Mailbox.TakeKeepsQueue | src/synesthesia_machine/runtime/engine_body.py:439-453 | starting the oldest command keeps the promises of the rest |
| Mailbox.TakeKeepsStarts | src/synesthesia_machine/runtime/engine_body.py:439-453 | a started frame is then the newest of its epoch, no reset but SOURCE_ENDED was accepted after it, and a source's commands start in order |
| Mailbox.PublishConserves | src/synesthesia_machine/runtime/engine_body.py:302-327 | published = started + dropped + discarded + waiting, per source |
| Mailbox.ResetConserves | src/synesthesia_machine/runtime/engine_body.py:329-342 | the same across a reset |
| Mailbox.TakeConserves | src/synesthesia_machine/runtime/engine_body.py:439-453 | the same across a start |
| Mailbox.Worker.Publish | src/synesthesia_machine/runtime/engine_body.py:302-327 | the queue is the old one with the frame placed; a foreign clock or a closed worker raises |
| Mailbox.Worker.ResetFrom | src/synesthesia_machine/runtime/engine_body.py:329-342 | the queue is what the reset keeps, and then the reset |
| Mailbox.Worker.Take | src/synesthesia_machine/runtime/engine_body.py:439-453 | the oldest command starts |
| Mailbox.Worker.Occupancy | src/synesthesia_machine/runtime/engine_body.py:371-393 | the frames of a source executing or waiting, at most two more than its waiting resets |
| Mailbox.Worker.CloseWorker | src/synesthesia_machine/runtime/engine_body.py:423-437 | nothing waits any more, and what waited counts as discarded, source by source |
| Mailbox.Worker.Run | src/synesthesia_machine/runtime/engine_body.py:302-453 | every interleaving keeps all of this |
| Voices.SomeVoiceIsFree | src/synesthesia_machine/midi/debug_synth.py:355-374 | with the desired set capped to the pool and a desired key unvoiced, some voice is idle or plays an unwanted key |
| Voices.EnterKeeps | src/synesthesia_machine/midi/debug_synth.py:338-347 | entering a note keeps keys distinct and takes no desired key's voice |
| Voices.TouchedFollows | src/synesthesia_machine/midi/debug_synth.py:327-336 | after the first pass voices of desired keys play at their velocity and all others are released |
| Voices.TouchedContinues | src/synesthesia_machine/midi/debug_synth.py:327-336 | the first pass moves no key to another voice and changes no level or age |
| Voices.EnterContinues | src/synesthesia_machine/midi/debug_synth.py:338-347 | an entering note disturbs no voice that continues |
| Voices.ExactlyOneVoice | src/synesthesia_machine/midi/debug_synth.py:313-347 | in a reconciled pool a desired key has exactly one voice, in ATTACK or SUSTAIN, at its velocity |
| Voices.RenderedStaysReconciled | src/synesthesia_machine/midi/debug_synth.py:376-434 | rendering a block keeps the pool reconciled |
| Voices.RenderedAges | src/synesthesia_machine/midi/debug_synth.py:376-434 | rendering keeps the ages of active voices distinct |
| Voices.ReleaseIsLinear | src/synesthesia_machine/midi/debug_synth.py:414-421 | an untouched released voice falls on a straight line and is idle from zero on |
| Voices.ReleaseEnds | src/synesthesia_machine/midi/debug_synth.py:395-428 | it is idle once the rendered blocks cover the release time |
| Voices.AttackIsLinear | src/synesthesia_machine/midi/debug_synth.py:406-413 | an untouched attacking voice rises on a straight line and is sustained at 1 from where that gets there |
| Voices.AttackEnds | src/synesthesia_machine/midi/debug_synth.py:406-413 | it is sustained, at level 1, once the rendered blocks cover the attack time |
| Voices.SustainStays | src/synesthesia_machine/midi/debug_synth.py:422-424 | a sustained voice stays as it is |
| Voices.RenderedIsAudible | src/synesthesia_machine/midi/debug_synth.py:395-428 | a playing voice is above level 0 after one block |
| Voices.Cap | src/synesthesia_machine/midi/debug_synth.py:232-240 | exactly the loudest notes stay, as many as there are voices, ties going to lower keys |
| Voices.LeftOutIsOutdone | src/synesthesia_machine/midi/debug_synth.py:232-240 | a note is left out only if every note kept is louder, or as loud with a lower key |
| Synth.DebugSynth.constructor | src/synesthesia_machine/midi/debug_synth.py:149-193 | every voice is idle |
| Synth.DebugSynth.Update | src/synesthesia_machine/midi/debug_synth.py:210-253 | the desired notes are the capped ones, unless the synth is closed or the generation is from 1 to the watermark |
| Synth.DebugSynth.Panic | src/synesthesia_machine/midi/debug_synth.py:255-262 | nothing is desired, the panic count and the watermark rise; a negative generation raises after that |
| Synth.DebugSynth.CloseSynth | src/synesthesia_machine/midi/debug_synth.py:264-274 | nothing is desired and the synth is closed |
| Synth.DebugSynth.SelectVoice | src/synesthesia_machine/midi/debug_synth.py:355-374 | it never fails: the first idle voice, else the quietest and then oldest voice of an unwanted key |
| Synth.DebugSynth.Enter | src/synesthesia_machine/midi/debug_synth.py:338-347 | exactly the selected voice starts the key from silence, as the youngest |
| Synth.DebugSynth.TouchVoices | src/synesthesia_machine/midi/debug_synth.py:327-336 | releases and refreshes change no key |
| Synth.DebugSynth.Reconcile | src/synesthesia_machine/midi/debug_synth.py:313-347 | every desired key has its voice and every other active voice is released; a key that had a voice keeps it, its level and, but for a release, its stage; a new one starts from silence, lower keys first |
| Synth.DebugSynth.RenderVoices | src/synesthesia_machine/midi/debug_synth.py:303-306 | every active voice advances by one block, the pool stays reconciled, and every desired key is audible |
| Synth.DebugSynth.ClearVoices | src/synesthesia_machine/midi/debug_synth.py:436-441 | no voice is active |
| Synth.DebugSynth.Callback | src/synesthesia_machine/midi/debug_synth.py:276-311 | the first callback after a panic only clears the voices; any other reconciles them without a jump in level and renders one block, after which every desired key is audible |
| Synth.DebugSynth.Run | src/synesthesia_machine/midi/debug_synth.py:210-311 | every run keeps the pool, and no allocation fails |
| RegionPass.SelectionIsExact | src/synesthesia_machine/media/region_pass.py:142-192 | the selected frames are exactly the convertible frames at multiples of n, in order |
| RegionPass.InRegionIs | src/synesthesia_machine/media/region_pass.py:159-166 | in range are, of the frames before the first one past the end, those with no timestamp before the start |
| RegionPass.FrameCounted | src/synesthesia_machine/media/region_pass.py:155-184 | each frame is skipped, counted or selected as the whole pass requires, and the counters with it |
| RegionPass.Run | src/synesthesia_machine/media/region_pass.py:114-192 | the presented frames are a prefix of the pass, all of it unless a stop or the budget ended it; decoding stops at the first frame past the end, and in-range frames are the skipped ones and the multiples of n |
| LoopPass.CarriesMore | src/synesthesia_machine/media/video_source.py:780-819 | the decode worker's next item continues the endless repetition of the pass |
| LoopPass.LiveFrameTaken | src/synesthesia_machine/media/video_source.py:1076-1084 | the index filter drops a live frame iff the head has shown it |
| LoopPass.HeadFrameShown | src/synesthesia_machine/media/video_source.py:1032-1038 | a head frame is the next frame of the pass |
| LoopPass.WholePassShown | src/synesthesia_machine/media/video_source.py:1058-1075 | at a loop signal, and at the end, the whole pass has been shown, and all presented so far is whole passes |
| LoopHead.VideoLoop.constructor | src/synesthesia_machine/media/video_source.py:314-341 | nothing is shown and the shared head is empty |
| LoopHead.VideoLoop.DecodeStep | src/synesthesia_machine/media/video_source.py:780-819 | the next frame of the pass is queued; after the last one a loop signal iff the source loops and some frame is in range, and otherwise the end |
| LoopHead.VideoLoop.StageHead | src/synesthesia_machine/media/video_source.py:912-975 | a staged head is never empty |
| LoopHead.VideoLoop.SwapHead | src/synesthesia_machine/media/video_source.py:984-996 | the staged head replaces the shared one unless that is being served |
| LoopHead.VideoLoop.GiveUpStaged | src/synesthesia_machine/media/video_source.py:992-995 | giving up drops the staged head only |
| LoopHead.VideoLoop.PresentStep | src/synesthesia_machine/media/video_source.py:1006-1084 | one turn of the presentation keeps the protocol |
| LoopHead.VideoLoop.ServeHead | src/synesthesia_machine/media/video_source.py:1016-1038 | the head is drained frame by frame before the live pass is read |
| LoopHead.VideoLoop.ServeFrame | src/synesthesia_machine/media/video_source.py:1030-1038 | the next head frame is taken and shown with the next index |
| LoopHead.VideoLoop.TakeLoop | src/synesthesia_machine/media/video_source.py:1058-1075 | a loop signal closes a pass shown completely and captures the shared head |
| LoopHead.VideoLoop.TakeEnd | src/synesthesia_machine/media/video_source.py:1043-1057 | at the end signal the last pass has been shown completely, and nothing follows |
| LoopHead.VideoLoop.TakeLive | src/synesthesia_machine/media/video_source.py:1076-1084 | a live frame is dropped if the head has shown it and shown otherwise |
| LoopHead.VideoLoop.Run | src/synesthesia_machine/media/video_source.py:1016-1084 | whatever was staged and whenever it was swapped in: all that is ever presented is some number of whole passes over the selected frames, in order, once each, indices 1, 2, 3, …, and a prefix of one more, which is whole at the end of the source; unless stopped, presentation only ends there; a source that does not loop, or has no frame in range, is passed over at most once, and any other never comes to its end |
| Smf.VariableLength | src/synesthesia_machine/midi/smf.py:39-49 | the loop yields the quantity |
| Smf.QuantityRoundTrip | src/synesthesia_machine/midi/smf.py:39-49 | reading an encoded quantity gives it back and leaves the rest |
| Smf.QuantityLength | src/synesthesia_machine/midi/smf.py:39-49 | four bytes suffice iff the value is below 2^28, and how many each value takes |
| Smf.FirstTempoFits | src/synesthesia_machine/midi/smf.py:102-110 | the first tempo is positive and at most 1 677 215 |
| Smf.ShortIntervalsFit | src/synesthesia_machine/midi/smf.py:136-145 | up to 30 534 048 microseconds the second tempo fits three bytes |
| Smf.SomeLongIntervalDoesNotFit | src/synesthesia_machine/midi/smf.py:136-145 | 30 572 485 microseconds leave remainder 17 485, which does not fit |
| Smf.LongestInterval | src/synesthesia_machine/midi/smf.py:136-145 | no interval above 339 379 214 microseconds fits, that one does, and the ticks of every interval that fits are below 2^28, so its delta takes at most four bytes |
| Smf.IntervalElapses | src/synesthesia_machine/midi/smf.py:93-145 | a reader lets exactly the interval's microseconds pass over the two tempo segments, or none below 31 |
| Smf.TemposElapse | src/synesthesia_machine/midi/smf.py:118-145 | while the tempo segments are read all but the outstanding microseconds pass |
| Smf.ClosingElapses | src/synesthesia_machine/midi/smf.py:93-110 | while the closing delta is read exactly the outstanding microseconds pass |
| Sorting.SortIsSorted | src/synesthesia_machine/midi/smf.py:62-64 | under a total order the result is in order |
| Sorting.SortIsStable | src/synesthesia_machine/midi/smf.py:62-64 | elements that compare equal keep their order |
| Smf.SortedEvents | src/synesthesia_machine/midi/smf.py:62-64 | the encoder's events are in order of time, channel, note and kind, and equal ones keep theirs |
| Smf.EventOrder | src/synesthesia_machine/midi/smf.py:62-64 | earlier events first; at one time lower channels, then lower notes, then note-offs |
| Smf.NoteReads | src/synesthesia_machine/midi/smf.py:76-86 | after an interval and a note a reader has got one event more, at the right time, note-off velocity 0 |
| Smf.EndReads | src/synesthesia_machine/midi/smf.py:87-90 | the track ends after the tail interval |
| Smf.EarlyByCollapsedIntervals | src/synesthesia_machine/midi/smf.py:102-139 | with times from zero on, no event is late, and the i-th is early by at most 30 microseconds per event |
| Smf.EventHeard | src/synesthesia_machine/midi/smf.py:76-86 | each event is heard as the same note on the same channel, on or off alike, with its velocity if on, and no earlier than by 30 microseconds per event |
| Smf.TrackEnd | src/synesthesia_machine/midi/smf.py:87-90 | the track ends at the duration or the last event, whichever is later, early by no more than that |
| Smf.OnTimeIffNoShortInterval | src/synesthesia_machine/midi/smf.py:102-139 | an event is on time iff no interval up to it is positive and shorter than 31 microseconds |
| Smf.ShortIntervalPlaysEarly | src/synesthesia_machine/midi/smf.py:102-139 | an event 30 microseconds in plays at once |
| Smf.WriteInterval | src/synesthesia_machine/midi/smf.py:118-145 | the tempo segments are appended; it raises iff the second tempo does not fit |
| Smf.EncodeTrack | src/synesthesia_machine/midi/smf.py:74-90 | reading the track gives the events at their played times and the end; its length is the sum of what each interval takes |
| Smf.Encode | src/synesthesia_machine/midi/smf.py:52-90 | reading the file gives the sorted events and the end of the track; a negative duration, a tempo that does not fit and a track of 2^32 bytes or more are exactly the errors named |
| Smf.HeaderFields | src/synesthesia_machine/midi/smf.py:66-72 | length 6, format 0, one track, 960 ticks to a quarter note |
| Literals.LiteralRoundTrip | src/synesthesia_machine/persistence/literals.py:57-108 | decoding an encoded literal gives it back, colours and matrices included |
| Literals.ColorRead | src/synesthesia_machine/persistence/literals.py:57-108 | a colour is read from exactly its type and four numbers, each under its own name |
| Literals.MatrixRead | src/synesthesia_machine/persistence/literals.py:57-108 | a matrix is read row by row, number by number |
| Literals.DecodedLiteralIsOk | src/synesthesia_machine/persistence/literals.py:57-126 | whatever decodes is a literal its class accepts |
| Literals.MappingRoundTrip | src/synesthesia_machine/persistence/literals.py:87-108 | the same for mappings |
| Literals.DecodedMappingIsOk | src/synesthesia_machine/persistence/literals.py:87-108 | whatever mapping decodes holds only literals their classes accept |
| Schemas.V1Upgrades | src/synesthesia_machine/persistence/schemas.py:85-110 | document fields that were there are kept and missing ones filled; nodes keep number and order; of a node object every field is kept and missing ones filled, but an old version field without a new one moves to its new name |
| Schemas.V2Upgrades | src/synesthesia_machine/persistence/schemas.py:112-125 | only connections change: same number and order, each object with every field kept and a state where it had none |
| Schemas.V3Upgrades | src/synesthesia_machine/persistence/schemas.py:127-163 | only connections into the old socket of a statistics node change, and of these only the socket; all others are equal |
| Schemas.V4Upgrades | src/synesthesia_machine/persistence/schemas.py:165-221 | exactly the nodes sharing an id with one of the removed type go, and exactly the connections to them or to retired sockets; the rest stays as it is, in order |
| Schemas.MigrateGraphData | src/synesthesia_machine/persistence/schemas.py:61-83 | the version loop ends at version 4, and fails iff the version is malformed or newer |
| Schemas.StepRaisesVersion | src/synesthesia_machine/persistence/schemas.py:61-83 | every migration raises the version by one |
| Schemas.CurrentIsStable | src/synesthesia_machine/persistence/schemas.py:61-83 | current data is left alone |
| Schemas.V4KeepsEnds | src/synesthesia_machine/persistence/schemas.py:165-221 | dropping nodes leaves no connection dangling that did not dangle before, if every end is spelled as the nodes it names |
| Schemas.NoNewDangling | src/synesthesia_machine/persistence/schemas.py:61-221 | over the whole chain and for any way of reading ids: if every end is spelled as the nodes it names, every dangling connection is, but for its state and destination socket, one that dangled before |
| Schemas.OtherSpellingDangles | src/synesthesia_machine/persistence/schemas.py:165-221 | a document of version 3 with an id in two spellings, a connection of which dangles only after the last step |
| Schemas.RetiredAreGone | src/synesthesia_machine/persistence/schemas.py:165-221 | from any older version: no node of the removed type with a text id is left, and no connection to a retired socket of a node that is there, combining or separating |
| GraphData.NodeRoundTrip | src/synesthesia_machine/persistence/graph_io.py:412-515 | a node of a known type at its current version is read back as written |
| GraphData.NodeFields | src/synesthesia_machine/persistence/graph_io.py:412-423 | which field of a written node holds what |
| GraphData.LinkFields | src/synesthesia_machine/persistence/graph_io.py:426-434 | which field of a written connection holds which end and which port |
| GraphData.GroupFields | src/synesthesia_machine/persistence/graph_io.py:437-446 | which field of a written group holds what |
| GraphData.LinkRoundTrip | src/synesthesia_machine/persistence/graph_io.py:426-542 | a connection is read back as written |
| GraphData.GroupRoundTrip | src/synesthesia_machine/persistence/graph_io.py:437-569 | a group is read back as written |
| GraphData.SortedUnique | src/synesthesia_machine/persistence/graph_io.py:66-153 | sorting by id keeps ids unique or not |
| GraphData.RoundTrip | src/synesthesia_machine/persistence/graph_io.py:66-153 | reading written data gives the document sorted by id with revision 0 exactly if ids are unique, no connection dangles and the limits hold; otherwise reading fails |
| GraphData.ReadRoundTrip | src/synesthesia_machine/persistence/graph_io.py:66-153 | whatever is read, of any version, is storable, current, in id order and within the limits; writing it and reading that again gives it back |
| GraphData.OldDataIsMigrated | src/synesthesia_machine/persistence/graph_io.py:100-126 | data of an older version is read as what it is migrated to, and data that cannot be migrated is not read |
| GraphData.OldNodeIsMigrated | src/synesthesia_machine/nodes/migrations.py:48-71 | a node saved at an older version is read through its definition's migrations, each of which must give the next version and keep id and type |
| GraphData.MigratedNodeIsOld | src/synesthesia_machine/nodes/migrations.py:48-71 | and it is read in no other way |
| GraphData.ReadsExactKeys | src/synesthesia_machine/persistence/graph_io.py:113-126 | nothing is read that, once migrated, lacks a field or has one more than its kind has |
| Layout.RaisedLevels | src/synesthesia_machine/graph/layout.py:131-137 | raising the successors of a visited node keeps levels path lengths and above visited predecessors |
| Layout.LevelsBoundPaths | src/synesthesia_machine/graph/layout.py:127-137 | no selected path to a node is longer than its final level |
| Layout.AllOrderedIffAcyclic | src/synesthesia_machine/graph/layout.py:138-139 | every node is visited iff the selected subgraph has no cycle |
| Layout.Levels | src/synesthesia_machine/graph/layout.py:115-139 | it fails iff the selection is cyclic; else each level is the length of the longest selected path ending there |
| Layout.PlaceAll | src/synesthesia_machine/graph/layout.py:144-156 | every box stands in the column of its level, the top one at the upper edge and each other exactly the gap below the one before it, in the order of their old positions: by y, then x, then id |
| Layout.TidyBoxes | src/synesthesia_machine/graph/layout.py:105-156 | it fails exactly on fewer than two boxes or a cycle; else the layout is tidy |
| Layout.EdgesGoRight | src/synesthesia_machine/graph/layout.py:141-156 | every selected edge goes right by at least the gap beyond its source's box |
| Layout.BoxesDoNotOverlap | src/synesthesia_machine/graph/layout.py:141-156 | no two placed boxes overlap |

## Left out

- Maximality of the valid remainder is not claimed: nodes behind a cycle and destinations of bad connections are dropped even where they could survive.
- GraphData.RoundTrip: UUIDs have one spelling and the error raised is not told apart; JSON text, file writing and media paths are not modelled.
- Schemas.MigrateGraphData: copying cannot fail here, and ids that are lists or objects are compared rather than rejected.
- `connection_compatibility` and the interactive queries of the compiler: single validations of an edited snapshot.
- Parameter validation is one `evaluate` function per definition; message texts and issue order within a stage are not modelled.
- RandomGraph.TryEdits: the candidates are an arbitrary list of insertions, lone nodes, removals and bypasses; the order in which the generator tries them, the types and ports it picks, and positions of nodes are not modelled.
- RandomGraph.RandomizeNodes: fresh ids for the fallback are a hypothesis about the generator.
- Status texts, connection states, waiting, timeouts, threads and real clocks of the session; value ranges of MIDI messages; exceptions outside sends, opening and enumeration.
- Mailbox.Worker.Run: `reset_plan_metrics`, which zeroes the drop counters, is not modelled, nor what executing a tick does beyond its start and end.
- Synth.DebugSynth.Update: keys arrive packed as channel * 128 + note; the pool's parallel arrays are one array of voices.
- Wave forms, phases, normalization and float32 rounding of the synth; envelopes are reals, and only the level at the end of a block is kept.
- Smf.Encode: times are whole microseconds, so rounding of float seconds is outside the model.
- LoopHead.VideoLoop.Run: seeks, failing decodes, pauses, queue capacities and when the head worker is triggered; staging may happen at any time.
- Layout.TidyBoxes: boxes form a map, so a selection does not name a node twice; aligning and distributing boxes are not modelled.
