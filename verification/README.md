# OrcaFlow: verified models

OrcaFlow runs workflow graphs of LLM agents in a Python sidecar and streams the
events of a run to a TypeScript client. This project models its cores in Dafny 4.11
and proves what they promise. `dafny verify dfyconfig.toml` checks all of it.

| files | what they model |
|---|---|
| `EventChannel`, `EventDelivery`, `EventEnding`, `EventBus` | the event bus: bounded replay buffer, overflow marker, bounded queues, slow subscribers, close and the end of subscriptions; every interleaving of its atomic steps |
| `SseText`, `RunStream`, `Decimals` | event stream text: the printed frames and the incremental parser of the client, with its reconnect state |
| `Reconnect`, `ReconnectHole` | bus, server, network and client together over any number of cut connections, and the one way a hole comes about |
| `Digraphs`, `Workflow` | workflow validation and Kahn's acyclicity check |
| `RunTrace`, `CallTrace`, `WorklistSearch`, `GraphRunner` | the runner: worklist loop, trace grammar, what the answers of calls and waiters do to a run, stored status |
| `BfsLayout` | the editor's layout by breadth-first levels |
| `ToolTrace`, `ToolRuntime` | one tool invocation: dry run, journal, run, audit and the transactions around them |
| `ApprovalProtocol`, `Approvals` | approve, reject, expiry and cancel racing around a call that needs approval |
| `AuditChain`, `AuditLog`, `Fields` | the audit hash chain, its verification and its writing |
| `UuidV7` | time-ordered ids (RFC 9562, sections 5.7 and 6.2) |
| `Journal` | before and after snapshots, spill files, restore plans |
| `Routing`, `RoutingLaws` | the white list and interpreter of edge conditions, and what conditions mean |
| `KeyCase` | snake and camel case keys of JSON trees |

## How to read the model

* What changes state step by step in the source is a class with the source's fields, and
  its methods are proved against functions on values. Safety over whole runs is proved
  about those functions: `EventDelivery.Run`, `Reconnect.SysRun` and
  `ApprovalProtocol.Run` range over arbitrary lists of steps.
* No method of the bus, the approval routes or the waiter suspends inside the stretch that
  one step models; the lock of the bus is never held across an await, so it is never
  contended and `emit` is one step.
* Faults are inputs or arbitrary choices: which writes fail, how a tool ends, whether the
  approval times out, what the status sink does, where a connection breaks.  What a run asks
  from outside is a function of the moment at which it asks (`CallTrace.Environment`).
* A queue of a subscriber is named by a number; `None` in it is the sentinel. Times, random
  bits and digests are parameters; a collision-free digest and an injective checksum are
  assumed where stated.
* Payloads of events are JSON texts, and a predicate says which texts the client's JSON
  parser accepts as a payload. Object values in the journal and the routing interpreter are opaque values.
* `hide` statements only shorten what the solver sees.

## Where code and documentation differ

The code is followed.

* sidecar/orca_core/ipc/sse.py:4 describes frames as event, data, id; the code prints id,
  event, data.
* sidecar/orca_core/tools/runtime.py:16 says every path is audited. A spill file that cannot
  be written, a reversible tool without a before snapshot and a tool that raises
  `CancelledError` in its dry run leave no rows; `ToolRuntimes.Escapes` is the exact set.
* sidecar/orca_core/ipc/routes/runs.py:324-325 reads as if a cancel settled the pending
  approvals; they stay pending and can still be approved, without effect
  (`ApprovalProtocol.LateApproveIsAcceptedInVain`).
* frontend/src/features/editor/lib/layout.ts centres each row over its slots; an edge to a
  node that does not exist takes a slot as well (`BfsLayout.MissingTargetPushesRow`; the exact
  condition is `BfsLayout.RowsAreCentred`).
* sidecar/orca_core/audit/record.py joins fields with bars without escaping them
  (`AuditChains.TextTellsIff`).
* sidecar/orca_core/orchestrator/events.py announces lost events with a gap frame, except the
  one that a close pushes out of a full queue (`ReconnectHole.CloseCanLeaveHole`).

## Model

| member | source | states |
|---|---|---|
| `EventDelivery.ReplayIsExactlyOnce` | sidecar/orca_core/orchestrator/events.py:83-211 | Over every interleaving of emits, subscriptions, reads, departures and closes, emitted ids are 1, 2, 3, ...; every subscriber goes back to one subscription step, and from its last id k and the ids emitted and still buffered at that step it has seen: once it has read on, a gap frame for k+1 up to the oldest buffered id if and only if k+1 was older than that id; then the emitted events from k+1 (from the next one if k was not emitted yet), from the oldest buffered one after a gap, or from the oldest one if there is no last id, in order, without hole or repeat, except for ids a close pushed out of its full queue; there are at most as many of those as closes |
| `EventDelivery.Registration` | sidecar/orca_core/orchestrator/events.py:144-165 | Over every run a subscriber keeps the request it registered with and what was emitted, buffered and closed at that step |
| `EventDelivery.StartIsAsked` | sidecar/orca_core/orchestrator/events.py:156-175 | The first event and the gap frame of a subscriber in any state that keeps the invariant are those its request and the buffer at registration call for |
| `EventDelivery.DrainedSubscriberIsUpToDate` | sidecar/orca_core/orchestrator/events.py:180-185 | A listed live subscriber with an empty queue started where it asked to, has seen a gap frame exactly if it missed events, and has seen everything since up to the last emitted event |
| `EventDelivery.SubscriptionStart` | sidecar/orca_core/orchestrator/events.py:145-175 | Which event a subscription with last id k starts at, that there is a gap exactly if k + 1 is older than the oldest buffered id, that a first connection never gets one, and that the gap names exactly lost ids if and only if k is not negative |
| `EventDelivery.ForcedLedger` | sidecar/orca_core/orchestrator/events.py:202-211 | A close changes what a subscriber is still owed by at most the oldest event of a full queue |
| `EventEnding.CloseSendsEnd` | sidecar/orca_core/orchestrator/events.py:195-211 | A close leaves the sentinel at the end of every listed queue, full or not, and touches no other queue |
| `EventEnding.ClosedSubscriberEnds` | sidecar/orca_core/orchestrator/events.py:156-211 | Over every run: a listener of a run that is closed, and then advanced as often as it has events left plus once for a gap and once for the end, has ended, whatever else happens meanwhile, and has got everything it had left to see after the close |
| `EventEnding.AdvanceWaits` | sidecar/orca_core/orchestrator/events.py:156-185 | An advance waits exactly if the subscriber has ended, or nothing is left to replay, it did not register on a closed run and its queue is empty; it finishes exactly if nothing is left to replay and it registered on a closed run or meets the sentinel |
| `EventEnding.StepNears` | sidecar/orca_core/orchestrator/events.py:83-211 | No step other than another close takes a subscriber with a sentinel in its queue away from its end, and each of its advances brings it closer |
| `EventEnding.ClearForgets` | sidecar/orca_core/orchestrator/events.py:195-220 | After a clear the next event has id 1 and a new subscription is listed, misses nothing and has nothing to replay; after a close that clears likewise, but the run stays closed |
| `EventDelivery.GapTellsRange` | sidecar/orca_core/orchestrator/events.py:159-170 | A gap frame carries the last lost id, and its payload determines the lost range |
| `EventDelivery.CloseCost` | sidecar/orca_core/orchestrator/events.py:202-211 | The number of waiting events a close costs: one if the queue is full with an event in front, else none |
| `EventDelivery.ResumeOk` | sidecar/orca_core/orchestrator/events.py:156-185 | One advance of the generator hands over exactly the next pending event, or the gap, and keeps the account of the subscriber |
| `EventDelivery.StepOk` | sidecar/orca_core/orchestrator/events.py:83-211 | Every atomic step keeps the invariant of buffer, overflow marker, ids, queues and all subscribers |
| `EventDelivery.AppendSpec` | sidecar/orca_core/orchestrator/events.py:83-107 | After an emit the buffer holds the newest events up to its limit and the overflow marker is the oldest buffered id |
| `EventBuses.EventBus.Emit` | sidecar/orca_core/orchestrator/events.py:83-136 | On the dictionaries: the id counter, marker, buffer, every queue that had room and the listener list change as one step of the run; slow listeners are gone and other runs untouched |
| `EventBuses.EventBus.Record` | sidecar/orca_core/orchestrator/events.py:83-107 | Bookkeeping under the lock: id, overflow marker computed before the append, bounded buffer |
| `EventBuses.EventBus.Dispatch` | sidecar/orca_core/orchestrator/events.py:107-126 | The dispatch loop puts the event into each queue with room and reports exactly the full ones |
| `EventBuses.EventBus.DropSlow` | sidecar/orca_core/orchestrator/events.py:127-135 | The removal loop leaves exactly the listeners whose queue had room; the full queues stay as they are |
| `EventBuses.EventBus.Register` | sidecar/orca_core/orchestrator/events.py:144-149 | A new queue, listed unless the run is closed, with a snapshot of buffer, marker and closed flag |
| `EventBuses.EventBus.Unregister` | sidecar/orca_core/orchestrator/events.py:186-193 | A departing subscriber is taken off the list, an empty list is removed |
| `EventBuses.EventBus.CloseRun` | sidecar/orca_core/orchestrator/events.py:195-211 | Closes the run, optionally clears buffer, ids and marker; every queue that was listed then ends with the sentinel, full or not |
| `EventBuses.EventBus.Clear` | sidecar/orca_core/orchestrator/events.py:216-220 | Forgets buffer, ids, closed flag and marker of one run |
| `EventBuses.Subscription.Next` | sidecar/orca_core/orchestrator/events.py:156-193 | One advance of the generator with its loops and early returns is one step of the delivery model |
| `EventBuses.Subscription.Wait` | sidecar/orca_core/orchestrator/events.py:180-185 | The live loop takes the head of the queue, ends on the sentinel or waits |
| `EventBuses.SkipOld` | sidecar/orca_core/orchestrator/events.py:172-175 | The replay loop skips exactly the events up to the last id |
| `EventBuses.DroppingSlowLeavesQuick` | sidecar/orca_core/orchestrator/events.py:127-135 | Removing the slow listeners one by one leaves the quick ones in their order |
| `SseText.AnyChunking` | frontend/src/lib/ipc/run-stream.ts:115-140 | Reading a text in pieces, however it is cut, gives the same parser state and the same deliveries as reading it whole |
| `SseText.FeedInChunks` | frontend/src/lib/ipc/run-stream.ts:115-140 | The same for two pieces |
| `SseText.RoundTrip` | sidecar/orca_core/ipc/sse.py:108-112 | Reading printed frames with comments between them delivers the same ids, names and payloads in order and leaves the parser between frames |
| `SseText.FrameReadsBackIff` | sidecar/orca_core/ipc/sse.py:108-112 | A frame with a JSON payload reads back as the same event exactly if its name is one line without outer white space |
| `SseText.FeedComment` | frontend/src/lib/ipc/run-stream.ts:129-131 | Keep-alive and opening comments change nothing |
| `SseText.BlankLineExactly` | frontend/src/lib/ipc/run-stream.ts:89-112 | What a blank line does to any collected fields: nothing without data, no delivery and no new last event id for data that is not JSON, "message" for a missing name, and only a positive id moves the last event id |
| `SseText.OtherLinesAreSkipped` | frontend/src/lib/ipc/run-stream.ts:125-139 | Any other non-empty line changes nothing |
| `SseText.CutFrame` | frontend/src/lib/ipc/run-stream.ts:114-142 | A frame cut short delivers nothing; at most its fields are collected |
| `SseText.CutAnywhere` | frontend/src/lib/ipc/run-stream.ts:114-142 | Cut at any character, a connection has delivered a prefix of its frames, its last event id is that of the last one, and a final flush can only complete the next frame |
| `RunStreams.RunStream.ReadChunk` | frontend/src/lib/ipc/run-stream.ts:120-139 | Decoding one chunk by splitting at newlines and keeping the rest equals reading it character by character |
| `RunStreams.RunStream.HandleLine` | frontend/src/lib/ipc/run-stream.ts:125-139 | Dispatch on blank, comment, id, event and data lines |
| `RunStreams.RunStream.DispatchEvent` | frontend/src/lib/ipc/run-stream.ts:89-112 | Delivers the collected frame, moves the last event id only for a positive number, skips payloads that are not JSON, and returns before any reset when there is no data |
| `RunStreams.RunStream.OnFailure` | frontend/src/lib/ipc/run-stream.ts:64-76 | Retries exactly while not stopped and fewer than three retries were used; the failure step of the whole system counts the same way |
| `RunStreams.RunStream.BeginRead` | frontend/src/lib/ipc/run-stream.ts:55-87 | An accepted response resets the retry count and the parser but not the last event id |
| `RunStreams.RunStream.Header` | frontend/src/lib/ipc/run-stream.ts:38-41 | From the header the client sends, the server reads back exactly where the client stands; before the first event it reads back that there is none |
| `RunStreams.Split` | frontend/src/lib/ipc/run-stream.ts:121 | Splitting at newlines: lines without newlines that join to the text |
| `Decimals.PrintedNatReadsBack` | frontend/src/lib/ipc/run-stream.ts:92 | An id printed by the server is read back by parseInt and by int |
| `Decimals.PrintedIntReadsBack` | sidecar/orca_core/ipc/sse.py:36-43 | A printed last event id is read back by int |
| `Reconnect.ReconnectsTellOneStory` | frontend/src/lib/ipc/run-stream.ts:32-146 | After any run of bus, server, network and client, over any number of connections each cut at any character, the delivered frames are events and announced gaps in strictly ascending order and the next Last-Event-ID is where they end; they have no hole if and only if they pass over no id that a close pushed out of one of the client's own full queues, and every close costs a subscription at most one such id |
| `Reconnect.GaplessIff` | frontend/src/lib/ipc/run-stream.ts:32-146 | Frames that skip only lost ids are a chain without hole exactly if no lost id lies between two consecutive ones |
| `ReconnectHole.CloseCanLeaveHole` | sidecar/orca_core/orchestrator/events.py:202-211 | A run in which a close pushes out the second of three events: the client gets the first and the third, and no reading of its frames as events and gaps is without hole |
| `ReconnectHole.HoleIsWritten` | sidecar/orca_core/orchestrator/events.py:202-211 | The same run step by step up to what the server writes |
| `Reconnect.ToldExactlyOnce` | sidecar/orca_core/orchestrator/events.py:156-175 | Every id from the first to the last delivered one is told exactly once, by its event or by one gap, unless it was passed over, and then a close pushed it out; no other id is told |
| `Reconnect.StepKeepsSystem` | sidecar/orca_core/ipc/sse.py:46-88 | Every step of bus, server and client keeps: what the client parsed is what a prefix of the written text parses to, and the frames written are what the subscription yielded |
| `Reconnect.StepKeepsStory` | frontend/src/lib/ipc/run-stream.ts:32-146 | Every step keeps the client's story ascending, with nothing left out but ids pushed out by a close |
| `SseText.HeaderReadsBack` | sidecar/orca_core/ipc/sse.py:36-43 | The server reads the last event id the client sent |
| `Reconnect.KeptFollows` | sidecar/orca_core/orchestrator/events.py:202-211 | The events of a stretch that were not pushed out ascend, and every id they leave out was pushed out |
| `Reconnect.YieldIsReadable` | sidecar/orca_core/ipc/sse.py:108-112 | Whatever the subscription yields, gap frames included, prints to a frame the client can read back |
| `Reconnect.StoryGrows` | frontend/src/lib/ipc/run-stream.ts:89-112 | Reading some frames of a connection extends the client's story without repeat and leaves out at most what closes pushed out of that connection's queue |
| `Reconnect.GivesUpAfterThree` | frontend/src/lib/ipc/run-stream.ts:64-76 | Three failures in a row are retried, the fourth ends the client, and nothing it was told is lost |
| `Reconnect.AcceptedStartsOver` | frontend/src/lib/ipc/run-stream.ts:55-87 | An accepted request starts over with no retries used and a fresh parser, at the last event id |
| `Workflows.CheckAcyclic` | sidecar/orca_core/schema/workflow.py:77-94 | Accepts exactly the edge multigraphs without a directed cycle; acceptance comes with a topological order of all nodes, rejection with a cycle |
| `Workflows.BuildTables` | sidecar/orca_core/schema/workflow.py:79-83 | Adjacency lists and in-degrees count every edge, parallel ones included |
| `Workflows.Release` | sidecar/orca_core/schema/workflow.py:87-92 | Popping a source decrements exactly its successors and queues exactly those that become sources |
| `Workflows.CollectUniqueNodeIds` | sidecar/orca_core/schema/workflow.py:54-62 | The ids, or an error exactly if there are none or one occurs twice |
| `Workflows.ValidateEdges` | sidecar/orca_core/schema/workflow.py:65-74 | No error exactly if every edge joins two different known nodes; otherwise the first offending edge |
| `Workflows.ValidateGraph` | sidecar/orca_core/schema/workflow.py:118-125 | A workflow is accepted exactly if nodes are present and unique, the entrypoint and all edge ends are known and the edges are acyclic; each error names its cause |
| `Digraphs.NoSourceMeansCycle` | sidecar/orca_core/schema/workflow.py:93-94 | Nodes left over that all have predecessors among themselves contain a cycle |
| `Digraphs.TopologicalOrderMeansAcyclic` | sidecar/orca_core/schema/workflow.py:77-94 | A topological order excludes cycles |
| `Digraphs.BallIffWalk` | sidecar/orca_core/orchestrator/runner.py:197-260 | The distance used below is the length of a shortest walk |
| `GraphRunners.GraphRunner.Run` | sidecar/orca_core/orchestrator/runner.py:123-191 | In every environment, whatever roles, chats, tools, conditions, cancels, approvals and the status sink do: the story of the run is what this environment answers at each point, cancels included, and is accepted by the story grammar, its events by the trace grammar; it executes known nodes at most once and in order of shortest distance along the edges taken; if it ends as succeeded, every call that the chats asked for was made and returned a result, on its own or on the retry after its approval, and it executed exactly the least set with the entrypoint closed under taken edges; it raises exactly if it ends as failed; a sink that never fails has stored exactly the statuses of that story, and in any case a terminal status is stored last and matches the terminal event |
| `GraphRunners.GraphRunner.ExecuteLoop` | sidecar/orca_core/orchestrator/runner.py:197-260 | The worklist loop terminates, never meets an unknown node on a validated workflow, and keeps nodes in order of distance although they are marked when popped and the queue holds duplicates |
| `GraphRunners.GraphRunner.RunStep` | sidecar/orca_core/orchestrator/runner.py:213-257 | One node: started, then succeeded with its targets after all its calls went well, or a failure that the terminal event can follow |
| `GraphRunners.GraphRunner.ExecuteNode` | sidecar/orca_core/orchestrator/runner.py:271-330 | A node either has made all the calls its chat asked for and yields chosen targets among its out-edges, all unconditional ones included, or it raises: a node failure exactly after a failed call |
| `GraphRunners.GraphRunner.AwaitApprovalAndRetry` | sidecar/orca_core/orchestrator/runner.py:424-499 | After an ask: awaiting approval is stored, then only an approve without a cancel leads to one retry, whose result decides; reject, expiry, cancel and a failing waiter stop the run; only approval events and no terminal status meanwhile |
| `GraphRunners.GraphRunner.DispatchToolCall` | sidecar/orca_core/orchestrator/runner.py:367-422 | A result lets the step go on, a failed or denied call trips it, an exception of whatever kind stops the run, an ask goes to the waiter; it never ends as a node failure itself |
| `CallTrace.SuccessNeedsAllCalls` | sidecar/orca_core/orchestrator/runner.py:310-326 | In an accepted story a step or a run is reported as succeeded only when every tool call the chats asked for so far was made and returned succeeded or dry_run, on its own or on the retry after its approval |
| `CallTrace.FailureEndsRun` | sidecar/orca_core/orchestrator/runner.py:418-499 | In an accepted story a failed or denied call, or a failed retry, is followed by the failed step, run.failed and nothing else; an exception, or a retry that is denied or asks again, by run.failed; a reject by approval.rejected and run.failed, or by run.cancelled if a cancel was seen; expiry, cancel and a failing waiter likewise, without any further call |
| `CallTrace.RetryNeedsApproval` | sidecar/orca_core/orchestrator/runner.py:443-490 | A retry comes only right after its own ask and after an approve |
| `CallTrace.EndHasReason` | sidecar/orca_core/orchestrator/runner.py:123-191 | A run that is not reported as succeeded has met a call, a waiter, a cancel or another fault that stops it; one that is reported as cancelled has seen a cancel |
| `CallTrace.StatusesInTurn` | sidecar/orca_core/orchestrator/runner.py:439-468 | The statuses of an accepted story: running first, awaiting approval only out of running and back to it, at most one terminal status and that last, and success only out of running |
| `GraphRunners.GraphRunner.Route` | sidecar/orca_core/orchestrator/runner.py:534-540 | The targets of the out-edges whose condition holds, in edge order; the first condition that is rejected, or whose truth test raises, ends the run with its kind of error, and later ones are not evaluated |
| `CallTrace.ChosenExactly` | sidecar/orca_core/orchestrator/runner.py:534-540 | The targets are those of exactly the out-edges whose condition is missing, blank or true, in edge order |
| `GraphRunners.GraphRunner.SetStatus` | sidecar/orca_core/orchestrator/runner.py:542-580 | A sink may store, fail or do both; only for a terminal status its failure is swallowed |
| `GraphRunners.GraphRunner.Finish` | sidecar/orca_core/orchestrator/runner.py:135-191 | The terminal event, then the terminal status, then closing |
| `GraphRunners.UnconditionalRunReachesAll` | sidecar/orca_core/orchestrator/runner.py:534-540 | Without conditions a successful run executed exactly what the entrypoint reaches |
| `RunTrace.AcceptedTrace` | sidecar/orca_core/orchestrator/runner.py:123-191 | A trace of the grammar has exactly one terminal event, its last, and its steps are complete pairs followed by at most one unfinished or failed step, none after success |
| `RunTrace.StopsOpen` | sidecar/orca_core/orchestrator/runner.py:135-191 | However the loop stops, the terminal event that `run` chooses fits the trace |
| `WorklistSearch.VisitNode` | sidecar/orca_core/orchestrator/runner.py:205-208 | A popped unvisited node is at exactly the current distance |
| `WorklistSearch.RecordArcs` | sidecar/orca_core/orchestrator/runner.py:258-260 | Recording the edges taken from the node just run changes no distance so far |
| `WorklistSearch.SearchDone` | sidecar/orca_core/orchestrator/runner.py:197-260 | An empty worklist means the visited nodes are the least closed set |
| `BfsLayout.ApplyBfsLayout` | frontend/src/features/editor/lib/layout.ts:15-90 | The loops over Map and queue compute the layout function; node order is kept |
| `BfsLayout.LevelsAreDistances` | frontend/src/features/editor/lib/layout.ts:33-59 | The level of a node is its shortest distance from the entry node, 0 if it is not reachable |
| `BfsLayout.NoOverlapIffUniqueIds` | frontend/src/features/editor/lib/layout.ts:72-89 | No two node boxes overlap exactly if the node ids are unique |
| `BfsLayout.EntryExactly` | frontend/src/features/editor/lib/layout.ts:33-35 | The entry is the first node with the flag, or the first node if none has it |
| `BfsLayout.RowsAndColumns` | frontend/src/features/editor/lib/layout.ts:72-84 | Boxes of a row stand 260 apart, rows 180 apart, and a row begins at minus half of its width |
| `BfsLayout.RowKeepsOrder` | frontend/src/features/editor/lib/layout.ts:61-70 | Nodes of a level stand in the order in which they got it |
| `BfsLayout.RowsAreCentred` | frontend/src/features/editor/lib/layout.ts:73-84 | For any nodes and edges all rows are centred on x = 0, every box having a mirror image in its row, if and only if in every row the slots that hold nodes lie symmetrically |
| `BfsLayout.MirrorIffNode` | frontend/src/features/editor/lib/layout.ts:73-84 | A single box has a mirror image if and only if the opposite slot of its row holds a node and not the id of a missing one |
| `BfsLayout.KnownTargetsCentre` | frontend/src/features/editor/lib/layout.ts:20-52 | Only nodes take slots if and only if every edge from a node that the entry reaches leads to a node; then all rows are centred |
| `BfsLayout.MissingTargetPushesRow` | frontend/src/features/editor/lib/layout.ts:25-52 | An edge to a missing node takes a slot, and the row is then off centre |
| `BfsLayout.LayoutIgnoresPositions` | frontend/src/features/editor/lib/layout.ts:86-89 | The result does not depend on the old positions |
| `BfsLayout.LayoutIdempotent` | frontend/src/features/editor/lib/layout.ts:15-90 | Applying the layout twice equals applying it once |
| `BfsLayout.AssignLevels` | frontend/src/features/editor/lib/layout.ts:37-59 | The queue loop and the loop over unvisited nodes compute levels and insertion order |
| `BfsLayout.Place` | frontend/src/features/editor/lib/layout.ts:72-84 | Rows are placed slot by slot, centred at zero |
| `ToolRuntimes.ToolRuntime.Invoke` | sidecar/orca_core/tools/runtime.py:138-344 | For every tool and every combination of decision, dry-run, run, cancel, journal and write faults: exactly when `Recorded` holds the committed database has one more ToolCall row and one more AuditLog row, linked to each other and with the stated contents, otherwise it is unchanged; the journal has one more entry exactly if one was written; the trace obeys the ordering rules; the tool starts at most once and exactly when it may; exactly the stated events are emitted; and the result or exception is the stated one. In terms of the inputs alone: the tool was started exactly if the input is valid, policy allows the call or asks and is overridden by an approval, neither caller nor tool default wants a dry run, the dry run of a tool that is not read-only returned, nobody cancelled, the row was inserted, and a reversible tool has its before entry; `dry_run` was started exactly in the stated cases, and always before a tool that is not read-only |
| `ToolRuntimes.StartsExactly` | sidecar/orca_core/tools/runtime.py:178-344 | When the tool is started, in terms of the inputs alone |
| `ToolRuntimes.DriesExactly` | sidecar/orca_core/tools/runtime.py:447-665 | When its dry run is started, in terms of the inputs alone: never when denied, always under dry_run_only or for a tool that is not read-only, else when the caller or the tool default wants one and the call need not be asked for |
| `ToolRuntimes.RowsOfRefused` | sidecar/orca_core/tools/runtime.py:350-558 | Decision, status, dry-run mark and error phase of both rows, answer and event of a denied call and of one that has to be approved, and when they are committed |
| `ToolRuntimes.RowsOfDryRun` | sidecar/orca_core/tools/runtime.py:587-720 | The same for a call that stops at its dry run, wanted, decided by policy or failed |
| `ToolRuntimes.RowsOfRun` | sidecar/orca_core/tools/runtime.py:722-909 | The same for a call that gets to the run: returned, raised, cancelled before or meanwhile |
| `ToolRuntimes.RowsOfUnjournaled` | sidecar/orca_core/tools/runtime.py:733-760 | The same for a reversible call without a before entry: which failures block it with rows of their own and which leave none |
| `ToolRuntimes.AnswersExactly` | sidecar/orca_core/tools/runtime.py:138-344 | The answers and events of invocations that are invalid, unrecorded, rescued or left by a cancelled dry run |
| `ToolRuntimes.ToolRuntime.Attempt` | sidecar/orca_core/tools/runtime.py:188-287 | The main transaction commits or leaves the database as it was |
| `ToolRuntimes.ToolRuntime.DoDeny` | sidecar/orca_core/tools/runtime.py:350-419 | A denied call leaves a blocked pair and raises only after the commit |
| `ToolRuntimes.ToolRuntime.DoAsk` | sidecar/orca_core/tools/runtime.py:421-558 | A call that needs approval leaves an approved pair; preview failures are swallowed |
| `ToolRuntimes.ToolRuntime.DoAllowOrDry` | sidecar/orca_core/tools/runtime.py:560-909 | Dry run first when due, stop there when wanted, otherwise journal and run |
| `ToolRuntimes.ToolRuntime.JournalBefore` | sidecar/orca_core/tools/runtime.py:711-734 | The before entry is inserted in the open transaction; a journal error fails closed, an invalid entry or a spill error breaks the transaction |
| `ToolRuntimes.ToolRuntime.RunTool` | sidecar/orca_core/tools/runtime.py:736-909 | The cancel check precedes the run; success, failure and both kinds of cancellation are audited |
| `ToolRuntimes.ToolRuntime.RecordDryRunFailed` | sidecar/orca_core/tools/runtime.py:911-966 | A failed or cancelled dry run leaves a failed pair |
| `ToolRuntimes.ToolRuntime.Rescue` | sidecar/orca_core/tools/runtime.py:968-1011 | After a journal failure a new transaction leaves a blocked pair and no journal entry, or nothing |
| `ToolRuntimes.ToolRuntime.AfterJournalFailure` | sidecar/orca_core/tools/runtime.py:287-333 | Rescue, else a line in the file mirror; tool_call.failed is emitted either way |
| `ToolRuntimes.ToolRuntime.RecordAudit` | sidecar/orca_core/audit/sink.py:84-134 | Row first, then the mirror line; either failure is an error |
| `ToolRuntimes.ToolRuntime.EmitAll` | sidecar/orca_core/tools/runtime.py:335-337 | Pending events are emitted in order and only outside a transaction |
| `ToolRuntimes.ToolRuntime.AskAndRetry` | sidecar/orca_core/orchestrator/runner.py:424-499 | An approved call leaves two ToolCall rows, a call not approved one, and only the retry can start the tool |
| `ToolRuntimes.LinkedMeansOneToOne` | sidecar/orca_core/tools/runtime.py:138-344 | In a linked database there are as many audit records as tool calls |
| `ToolRuntimes.PairKeepsLinks` | sidecar/orca_core/tools/runtime.py:138-344 | One more linked pair keeps the whole database linked one to one |
| `ToolTrace.FineMeansInOrder` | sidecar/orca_core/tools/runtime.py:205-344 | A trace the monitor accepts obeys, at every position: the tool runs only if it may, inside an open transaction and, if reversible, after a before entry of this call in that transaction; events come outside transactions; succeeded, denied and approval.requested only after a commit |
| `ToolTrace.MonitorCounts` | sidecar/orca_core/tools/runtime.py:205-344 | The monitor's counters are the number of tool starts and the list of emitted events |
| `ApprovalProtocol.ApprovalIsSafe` | sidecar/orca_core/ipc/routes/runs.py:85-133 | Over every interleaving of ask, decide, timeout, cancel, waiter resumption and retry over any number of runs: a tool call that needs approval starts at most once, only after its approval was approved and before any cancel of its run or expiry; no approval is decided twice or after its expiry |
| `ApprovalProtocol.AtMostOnce` | sidecar/orca_core/ipc/routes/approvals.py:30-76 | Counted over a history: at most one successful decide and at most one start per approval, and no start without a decide |
| `ApprovalProtocol.TableTellsHistory` | sidecar/orca_core/ipc/routes/approvals.py:49-76 | Over every interleaving an approval is in the table exactly if it was asked for; it is expired exactly if it timed out, else approved or rejected exactly as it was decided, else pending |
| `ApprovalProtocol.EventTellsHistory` | sidecar/orca_core/ipc/routes/runs.py:85-133 | Over every interleaving the event of a registered approval is set exactly if it was decided or its run was cancelled after the ask; nothing else wakes the waiter |
| `ApprovalProtocol.RepliesExactly` | sidecar/orca_core/ipc/routes/approvals.py:35-58 | Which decide and which cancel is not found, a conflict or accepted |
| `ApprovalProtocol.ExpiryIsFinal` | sidecar/orca_core/ipc/routes/runs.py:100-120 | Expiry overrides whatever was decided, ends the waiter, and no decide is accepted after it |
| `ApprovalProtocol.CancelEndsWaiting` | sidecar/orca_core/ipc/routes/runs.py:323-328 | A cancel of a started run sets the event and the sentinel of everything registered, and its waiter ends without a decision |
| `ApprovalProtocol.DecisionDecides` | sidecar/orca_core/orchestrator/runner.py:451-490 | A pending approval takes the waiter to the retry exactly if it is approved and the run not cancelled, and then the tool does start |
| `ApprovalProtocol.LateApproveIsAcceptedInVain` | sidecar/orca_core/ipc/routes/runs.py:323-328 | After a cancel an approve is still accepted and overwrites the sentinel, and the waiter nevertheless ends |
| `ApprovalProtocol.DecideFinds` | sidecar/orca_core/ipc/routes/approvals.py:49-58 | A decide finds the run that asked, whatever the order of runs |
| `ApprovalProtocol.StepKeeps` | sidecar/orca_core/ipc/routes/runs.py:85-133 | Every step keeps the invariant of approvals, handles and history |
| `Approvals.RunHandle.Approve` | sidecar/orca_core/ipc/dependencies.py:70-74 | Writes the result and sets the event if it is registered |
| `Approvals.RunHandle.Reject` | sidecar/orca_core/ipc/dependencies.py:76-80 | The same for a reject |
| `Approvals.RunHandle.CancelPending` | sidecar/orca_core/ipc/routes/runs.py:323-328 | The loop marks every registered approval with the sentinel and sets its event |
| `Approvals.AppServices.Decide` | sidecar/orca_core/ipc/routes/approvals.py:30-76 | Not found, conflict or one accepted transition, exactly as the state of the approval and the registrations say; an accepted approve is stored as approved, a reject as rejected, and no other approval changes |
| `Approvals.AppServices.FindRun` | sidecar/orca_core/ipc/routes/approvals.py:49-58 | The search finds a run with this approval registered exactly if there is one |
| `Approvals.AppServices.CancelRun` | sidecar/orca_core/ipc/routes/runs.py:291-330 | Not found, conflict on a terminal run or a finished task, else one cancel step |
| `Approvals.AppServices.Register` | sidecar/orca_core/ipc/routes/runs.py:85-88 | The waiter registers the approval as pending with an unset event |
| `Approvals.AppServices.Expire` | sidecar/orca_core/ipc/routes/runs.py:100-120 | Expiry overwrites the state, unregisters the approval and ends the wait |
| `Approvals.AppServices.Resume` | sidecar/orca_core/ipc/routes/runs.py:125-133 | The waiter's outcome with the runner's cancel check after it |
| `Approvals.AppServices.Retry` | sidecar/orca_core/orchestrator/runner.py:470-490 | The retry starts the tool exactly if it gets to its cancel check without a cancel |
| `AuditChains.VerifyChain` | sidecar/orca_core/audit/verify.py:32-72 | Accepts exactly the chains whose every link is sound, and otherwise reports the first faulty record and its fault |
| `AuditChains.SameLastHashSameHistory` | sidecar/orca_core/audit/verify.py:32-72 | Under a collision-free digest two chains that verify and end in the same hash are equally long and agree on every hashed text, hash and link |
| `AuditChains.HashFixesHistory` | sidecar/orca_core/audit/verify.py:32-72 | The same for any record of the two chains |
| `AuditChains.DroppingBreaksTheChain` | sidecar/orca_core/audit/verify.py:39-70 | Dropping records from a verified chain leaves one that verifies exactly if nothing is missing before a kept record |
| `AuditChains.TextTellsIff` | sidecar/orca_core/audit/record.py:30-41 | With id, time and previous-hash texts free of bars, the hashed text of a record determines actor, action, target and status among all records if and only if none of these four fields of it holds a bar |
| `AuditChains.BarsAreAmbiguous` | sidecar/orca_core/audit/record.py:30-41 | For every record with a bar in one of these fields there is another record, with other fields, that has the same hashed text |
| `AuditChains.UnhashedFieldsAreFree` | sidecar/orca_core/audit/record.py:30-41 | The policy decision and the run are not protected by the chain |
| `AuditLogs.HistoryVerifiesIffClockAscends` | sidecar/orca_core/audit/sink.py:96-134 | With the latest hash as provider a recorded history, listed by time and id, verifies exactly if the clock never went back |
| `AuditLogs.LatestHashIsLast` | sidecar/orca_core/persistence/repo/audit_logs.py:83-102 | On such a history the provider answers with the hash of the last listed row and never finds it corrupted |
| `AuditLogs.RunVerifiesIffFirst` | sidecar/orca_core/persistence/repo/audit_logs.py:73-81 | The rows of one run verify on their own exactly if no other run has a row before one of them |
| `AuditLogs.OrderedSorts` | sidecar/orca_core/persistence/repo/audit_logs.py:73-81 | The listing is sorted by time, then id, and has the same rows |
| `AuditLogs.AuditLogsRepository.Latest` | sidecar/orca_core/persistence/repo/audit_logs.py:83-102 | The row with the greatest time and id is the last of the listing; an empty hash is an integrity error |
| `AuditLogs.AuditLogsRepository.ListForRun` | sidecar/orca_core/persistence/repo/audit_logs.py:73-81 | The ordered rows of a run are the run's part of the whole ordered listing |
| `AuditLogs.AuditSink.Record` | sidecar/orca_core/audit/sink.py:84-134 | Chains to the latest hash, inserts, then mirrors; a failed mirror leaves the row to the surrounding transaction |
| `UuidV7.IdsAscend` | sidecar/orca_core/schema/_base.py:47-61 | For any clock readings, repeated or going back, and any random bits, later ids are greater 128-bit numbers, and greater hyphenated texts while the time fits |
| `UuidV7.TimeOfNext` | sidecar/orca_core/schema/_base.py:47-61 | The time field of the next number is the clock reading if that is later than the last time; otherwise the counter goes up by one, or from 4095 over into the next millisecond with counter 0 |
| `UuidV7.TimeReachesClock` | sidecar/orca_core/schema/_base.py:47-61 | Over any list of readings the time field of an id is never below a reading so far |
| `UuidV7.TimeStaysNear` | sidecar/orca_core/schema/_base.py:47-61 | It runs ahead of all readings by at most one millisecond for every 4096 ids |
| `UuidV7.TextReadsBack` | sidecar/orca_core/schema/_base.py:70-71 | Read as hexadecimal digits, the text without hyphens is the number and its first twelve digits are the time |
| `UuidV7.Fields` | sidecar/orca_core/schema/_base.py:63-68 | Time, version, counter, variant and random bits can be read back from the number |
| `UuidV7.TextsAscendUntilTheLimit` | sidecar/orca_core/schema/_base.py:63-71 | The next text is greater exactly if the time field stays below 48 bits |
| `UuidV7.FixedFields` | sidecar/orca_core/schema/_base.py:63-71 | 36 characters with the hyphens, version 7 and variant in place |
| `UuidV7.IdGenerator.Generate` | sidecar/orca_core/schema/_base.py:37-71 | Time and counter move strictly forward; the number carries the clock when that is later, else the counted-on state, and the random bits; the shifts and ors give the field layout |
| `UuidV7.Assembled` | sidecar/orca_core/schema/_base.py:63-68 | Or-ing the shifted fields equals adding them, as no bits overlap |
| `UuidV7.TextOrder` | sidecar/orca_core/schema/_base.py:70-71 | Numeric order of 128-bit values is the order of their hyphenated texts |
| `Journals.JournalStore.RestoreReturnsBefore` | sidecar/orca_core/journal/restore.py:40-97 | After any sequence of recordings, commits and rollbacks over any entries, inline or spilled, planning a restore against the recorded after state is ready with the entry's own before payload, against any other state it is a conflict; excepted are rows spoiled as stated below, and after a rollback those whose file was overwritten meanwhile |
| `Journals.JournalStore.RecordBefore` | sidecar/orca_core/journal/store.py:79-122 | When it succeeds, which error otherwise, and that no other row or spill file changes its meaning |
| `Journals.JournalStore.RecordAfter` | sidecar/orca_core/journal/store.py:124-163 | The same for the after snapshot; success makes the row whole again |
| `Journals.JournalStore.SpillAfter` | sidecar/orca_core/journal/store.py:179-210 | Writing the after file spoils the row exactly if it refers to that file, and the committed version of the row exactly if that one does |
| `Journals.JournalStore.Rollback` | sidecar/orca_core/persistence/db.py:59-83 | A rollback returns the table to what was committed while spill files stay; every row not spoiled meanwhile still stands for what was recorded |
| `Journals.PlanFollowsTheFile` | sidecar/orca_core/journal/restore.py:67-90 | For a spilled after the plan is ready against the recorded state exactly if the file still holds it |
| `Journals.PlanExactly` | sidecar/orca_core/journal/restore.py:40-97 | Which of the five plans an entry gets, for any entry, files and current state |
| `Journals.PlanForKept` | sidecar/orca_core/journal/restore.py:40-97 | The plan for an entry whose payloads are stored as recorded |
| `Journals.PathsAreOwn` | sidecar/orca_core/journal/store.py:172-173 | A spill path determines its entry and phase, whatever the runs |
| `Journals.WriteKeepsOthers` | sidecar/orca_core/journal/store.py:197-210 | Writing a spill file keeps what other entries and the other phase have stored |
| `Journals.JournalStore.MaybeSpill` | sidecar/orca_core/journal/store.py:179-210 | Payloads above the threshold go to the entry's own file, others stay inline |
| `Routing.EvaluateCondition` | sidecar/orca_core/orchestrator/routing.py:87-104 | No condition holds; syntax errors, disallowed trees and every exception of the walk are routing errors; otherwise the truth of the value, and another exception escapes exactly if taking that truth raises |
| `Routing.Interpret` | sidecar/orca_core/orchestrator/routing.py:107-190 | The recursive walk with its loops computes the evaluation function |
| `RoutingLaws.SafeExactly` | sidecar/orca_core/orchestrator/routing.py:68-84 | A tree is accepted exactly if every node in it, at any depth, is on the white list |
| `Routing.SafeIsSupported` | sidecar/orca_core/orchestrator/routing.py:68-84 | A tree on the white list never reaches the fallbacks for unknown nodes and operators |
| `Routing.ChainedComparisonIsAnd` | sidecar/orca_core/orchestrator/routing.py:150-160 | A chained comparison and the `and` of its neighbouring comparisons have the same value, error and stopping point |
| `Routing.ChainStopsEarly` | sidecar/orca_core/orchestrator/routing.py:150-160 | Once a comparison is false or raises, the later operands do not matter |
| `RoutingLaws.AndExactly` | sidecar/orca_core/orchestrator/routing.py:161-168 | `and` is true if all operands are; otherwise the first one that is not decides alone, as false or by what it raises |
| `RoutingLaws.OrExactly` | sidecar/orca_core/orchestrator/routing.py:169-172 | The same for `or` |
| `RoutingLaws.OrIsNotAndNot` | sidecar/orca_core/orchestrator/routing.py:161-177 | De Morgan, errors and the deciding operand included |
| `RoutingLaws.ComparesInOrder` | sidecar/orca_core/orchestrator/routing.py:150-160 | Operands of a comparison are evaluated from left to right, each only if the one before has a value |
| `RoutingLaws.AbsentIsUnordered` | sidecar/orca_core/orchestrator/routing.py:193-207 | An ordering with an absent operand is false and never raises |
| `RoutingLaws.EqualityAndMembership` | sidecar/orca_core/orchestrator/routing.py:194-218 | Equality and membership of any operands; only membership turns a type error into a routing error of its own |
| `RoutingLaws.IdentityNeverRaises` | sidecar/orca_core/orchestrator/routing.py:219-222 | Identity never raises and `is not` negates it |
| `RoutingLaws.PathsAreFollowed` | sidecar/orca_core/orchestrator/routing.py:116-149 | A path of attributes and constant subscripts leads where its steps lead; missing parts are absent, not errors |
| `RoutingLaws.NothingHasParts` | sidecar/orca_core/orchestrator/routing.py:116-149 | Once a path has come to nothing, every longer one is nothing as well |
| `RoutingLaws.NamesAndLengths` | sidecar/orca_core/orchestrator/routing.py:110-122 | No name but `state` is known; `length` of something without one is a routing error |
| `RoutingLaws.DisplaysExactly` | sidecar/orca_core/orchestrator/routing.py:182-185 | A list or set has the values of its elements in order |
| `RoutingLaws.DisplayStops` | sidecar/orca_core/orchestrator/routing.py:182-185 | Its first element without a value is what it comes to; an element of a set that cannot be hashed raises |
| `RoutingLaws.DictExactly` | sidecar/orca_core/orchestrator/routing.py:186-190 | A dictionary has the values of its entries in order |
| `RoutingLaws.DictStops` | sidecar/orca_core/orchestrator/routing.py:186-190 | The first key or value without a value is what it comes to; a value is evaluated before its key is hashed |
| `KeyCase.CamelOfSnakeTree` | frontend/src/lib/utils/case.ts:4-38 | Converting a JSON tree to snake case and back is the identity exactly if no key has an underscore before a lower-case letter or digit |
| `KeyCase.SnakeOfCamelTree` | frontend/src/lib/utils/case.ts:4-38 | Converting to camel case and back is the identity exactly if no key has an ASCII capital or an underscore before a digit |
| `KeyCase.CamelOfSnake` | frontend/src/lib/utils/case.ts:4-10 | The same for one key |
| `KeyCase.SnakeOfCamel` | frontend/src/lib/utils/case.ts:4-10 | The same for one key |
| `KeyCase.NothingLostIffNoCollision` | frontend/src/lib/utils/case.ts:16-22 | Converting the keys of an object loses no field exactly if no two siblings get the same key; then each field stays in its place |
| `KeyCase.KeysStayDistinct` | frontend/src/lib/utils/case.ts:16-22 | Keys that come back do not collide on the way there or back |
| `KeyCase.KeysToCamel` | frontend/src/lib/utils/case.ts:12-24 | The loop that fills the result object computes the conversion |
| `KeyCase.KeysToSnake` | frontend/src/lib/utils/case.ts:26-38 | The same towards snake case |

## Left out

- HTTP, authentication, process start, the desktop bridge, React components, stores and YAML: no algorithm of their own.
- LLM adapters and the tools themselves: a tool is a dry run and a run that may return, raise or be cancelled; a chat answer is an arbitrary list of calls.
- The second queue between the subscription and the response in `_iter_events`: it only delays frames, so the model writes a frame when the subscription yields it; frames lost in it when a connection ends count as unread.
- `_format_stream_error` and failures of the producer task: the stream then ends as a regular end of stream.
- Carriage returns and byte order marks, on which WHATWG HTML section 9.2.6 and the client differ; the server prints neither.
- `int` on header texts with inner underscores or non-ASCII digits, and JavaScript numbers beyond exact integers: the client only sends what it parsed.
- Negative `Last-Event-ID` values in the end-to-end result: the client never has one; `EventDelivery.SubscriptionStart` covers them for a single subscription.
- Clearing a run while subscribers are attached: `EventBuses.EventBus.CloseRun` and `EventBuses.EventBus.Clear` model it, the delivery theorem does not follow ids across a restart of the counter.
- Cancellation of asyncio tasks from outside, and the clean-up of finished runs from the registry.
- Back-off delays, keep-alive intervals and timeouts as durations: only the choice whether they fire.
- Policy matching, secret scrubbing, previews and log records: the policy decision is an input, the mirror holds the record itself.
- SQLite, gzip, SHA-256: the database is a value with snapshot and rollback, files are a map from paths, digests are functions.
- ToolRuntimes.ToolRuntime.Invoke: does not chain hashes, as the runtime builds its sink without a provider; chaining is in `AuditLogs`.
- Writers without back-fill (`NotImplementedError` is suppressed by the runtime): the link between the rows would be missing; both writers in the repository have it.
- AuditLogs.HistoryVerifiesIffClockAscends: orders rows by the numbers behind the time and id texts; ISO texts of one zone and `UuidV7.TextOrder` order the same way.
- The no-op transaction factory of the entry point: it does not implement the writers the runtime relies on.
- Python's parser, recursion limit and object identity: a condition is given as a tree, identity is a parameter.
- Key order of integer-like keys and the key `__proto__` in JavaScript objects: objects are lists of fields in insertion order.
