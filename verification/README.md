# exo: verified model of the cluster core

exo runs one language model over several machines. This project models the parts of it that have
to agree with each other, and proves what they promise:

- **The replicated event log.** Producers number their events and resend them until they come back;
  the elected master puts them in order, indexes, applies, stores and broadcasts them; every node
  puts the broadcast in order again, asks for what is missing and folds it into its state.
  `EventBuffer`, `EventRouter`, `MasterNode` and `DiskEventLog` are the objects, `NackRequests` is
  about the requests for missing entries, `Replication` is the whole system as steps over a network
  that loses, repeats and reorders, `ReplicationSafety` its invariant, `ReplicationResults` what
  follows for every run, `CatchUp` what answered requests for the log do while it grows, and
  `Settlement` which events can stop being resent.
- **The replicated state.** `Cluster` is the state and the events that change it; `EventEffects` says
  what every event does to it, `StateFacts` and `TopologyGraph` prove what every such state satisfies,
  `Transition` that placement events turn one set of instances into another.
- **Election.** `Election` is one node's campaigns in any interleaving, `Votes` what a node says of
  itself in them, `ElectLoop` what it does with the results.
- **Bring-up.** `Plan` is a worker's decision, `PlanFacts` what it means in the fields it reads,
  `Downloads` the reports it reads, `BringUp` the barriers those decisions form over any number of
  nodes with stale views, `BringUpProgress` that it cannot get stuck, and `BringUpEnds` that it gets
  there in linearly many rises.
- **Placement.** `Cycles` enumerates rings, `Placement` picks the group to place on, `Allocation`
  divides the layers, `Shards` hands them out; `PlacementFacts` and `ShardFacts` say in fields what
  comes of it.
- **Smaller pieces.** `ApiNode` is the API's own copy of state and log, `PowerSampler` integrates
  energy over windows, `PowerWindows` says when windows add up, `ImageChunks` splits images and puts
  them together again.

Objects the source updates in place are classes whose methods are proved against functions on
values; the laws are proved about those functions and over whole runs.

## What the code does not do

These are statements about the code that turned out false as they are usually put; each names what shows it.

- Not every event entered for redelivery stops being resent. A trace report is never logged, so its
  router resends it for ever; every other event can still leave (`Settlement.LeavesExactly`). But an
  event that comes back from the master before it is entered (`Settlement.EchoBeforeEntry`) leaves
  only if its log entry happens to be broadcast again: without such repeats an event can leave
  exactly if it is no trace report and its entry is not yet released
  (`Settlement.LeavesUnrepeatedExactly`).
- An event whose record would not fit its four-byte length is applied by the master before storing it
  raises, so the master's state is then ahead of its log (`MasterNode.MasterProcess.LogNext`); what came before
  is logged and broadcast (`MasterNode.MasterProcess.OnLocalEvent`).
- The API forgets an election it heard of before an earlier one ended, and lets requests through while
  it is under way (`ApiNode.NewerElectionForgotten`); it holds them back exactly while a message since
  the last result is of a later election (`ApiNode.ApiState.OnElectionMessage`).
- `_nack_request` says it is cancelled as soon as an event arrives in sequence. If two arrivals out of
  order start a request each before the first one begins, the first is never told to stop
  (`NackRequests.FirstOfTwoIsNeverTold`). A request gets out of reach exactly when another begins while
  it is active (`NackRequests.StraysExactly`); if every request begins before the next arrival, none
  does (`NackRequests.PromptRequestsStop`).
- A node that is no candidate can win over one: if the campaign of a round is entered only after a
  later round was called, it votes under the later clock, which beats the candidates' messages in its
  list (`Votes.LateEntryBeatsCandidate`). Against candidates' messages it wins exactly if all of them
  are of an earlier round (`Votes.NoCandidateWinsExactly`).
- The elect loop's assertion fails when messages of two later rounds arrive while a campaign is voting:
  both their campaigns wait for it to end, and both then vote
  (`ElectLoop.OverlappingRoundsBreakTheLoop`).
  It holds in every run in which a round starts only when no campaign still waits to vote
  (`ElectLoop.OrderlyRunsAreSafe`), and in any run it fails exactly on a result that elects the node
  under a new session right after it won under another (`ElectLoop.QueueTakenExactly`).
- `_pending_tasks` can look up a runner its view does not hold, and then raises `KeyError`. This
  happens exactly to a single-node instance whose own status has not come back
  (`BringUpProgress.MissingRunnerExactly`, with a run in `BringUpProgress.LookUpFails`).
- After the minimum-one repair a node with more memory can have fewer layers
  (`Allocation.RepairCanInvert`), by at most one (`Allocation.AllocationNearlyFollowsMemory`): exactly
  if the lesser node's share before the repair reaches the level all shares are cut to, and the greater
  node is among the first of these, which give one more, while the lesser is not
  (`Allocation.InversionExactly`).
- Nobody checks the memory of the second half of a two-branch placement
  (`Shards.SecondHalfUnchecked`), so a placement can be short of it (`Shards.SecondHalfShort`). Every
  node has the memory for its layers exactly if the first half's shares fit the second half in the
  opposite order (`Shards.AllFitExactly`).
- Prefill and generation energy of a node with positive power add up to its total exactly when its
  samples start at zero and end at the elapsed time (`PowerSampler.PhasesMakeTotal`).
- With several samples at one time two windows that meet there can fail to add up
  (`PowerSampler.RepeatedTimesBreakTheSum`). All windows add up exactly if the first and the last
  sample of every time show the same power (`PowerWindows.WindowsAddExactly`).
- An edge report that carries an RDMA edge between nodes not known to be enabled breaks the RDMA
  gate, and nothing else does (`TopologyGraph.EventKeepsGate`).
- The transition events reach the target exactly when instances kept under one identifier are equal
  (`Transition.TransitionReachesTarget`).
- An empty image has no chunk, so no worker that did not have it ever gets it although it is noted as
  sent (`ImageChunks.EmptyNeverArrives`), and a request's task can start exactly if none of its images
  is empty (`ImageChunks.RequestRunsExactly`).
- `_seek_to` says it scans from the highest cached index below the target; it takes the one used last
  (`DiskEventLog.EventLog.ScanStart`), which two range reads can make a lower one
  (`DiskEventLog.PassOverNearest`). The two are the same exactly if no larger index below the target is
  cached than the one used last (`DiskEventLog.StartsAtHighestExactly`). The offset it arrives at is
  right either way (`DiskEventLog.EventLog.SeekTo`).

## Assumptions

- Identifiers drawn at random (events, senders, runners) are new. Serialisation round-trips. The
  runs of `Replication` are those in which every event can be stored.
- The network is the set of messages sent: any of them may arrive any number of times, in any order,
  or never. A stretch of code without `await` is one step, and sending is one step.
- Retries, time-outs and back-off fire at any time; nothing depends on how long they take.
- A node name is a number; only its order matters, to break ties between election messages.
- A runner goes from connecting to connected, and from warming up to ready, only once all runners of
  the instance have entered that phase; it does not fail.
- The graph library's `simple_cycles` lists each simple cycle once up to rotation. Parallel edges
  count as one edge for cycles.
- Quotas, powers and times are exact numbers, and the clock moves on between two samples.
- Two different images never share a hash (used only where a lemma says so).

## Model

| member | source | states |
|---|---|---|
| `EventBuffer.OrderedBuffer.Ingest` | src/exo/utils/event_buffer.py:16-26 | an item below the release index or already held changes nothing; a held index may only be repeated with the same item |
| `EventBuffer.OrderedBuffer.Drain` | src/exo/utils/event_buffer.py:28-37 | returns what a drain releases and leaves what it leaves |
| `EventBuffer.OrderedBuffer.DrainIndexed` | src/exo/utils/event_buffer.py:39-48 | the same items, each with its consecutive index |
| `EventBuffer.DrainReachesLeastGap` | src/exo/utils/event_buffer.py:28-37 | a drain stops at the least index not held, releases exactly the items below it in order and keeps exactly those above |
| `EventBuffer.TracksDrain` | src/exo/utils/event_buffer.py:28-48 | of a buffer fed from a numbered stream, what is released is the next stretch of the stream, without gap or repeat |
| `EventBuffer.FedKnowsArrivals` | src/exo/utils/event_buffer.py:16-48 | after any arrivals in any order the buffer knows exactly the old and the arrived indices |
| `EventBuffer.OrderInsensitive` | src/exo/utils/event_buffer.py:16-48 | two deliveries of the same set of items leave the same buffer, whatever the order and repetition |
| `EventBuffer.ArrivalsCloseGap` | src/exo/utils/event_buffer.py:39-48 | once every index below an end has arrived among other traffic, the release index is at least that end |
| `EventBuffer.MultiSourceBuffer.Ingest` | src/exo/utils/event_buffer.py:60-64 | a source gets a buffer with its first item, and only that source's buffer changes |
| `EventBuffer.MultiSourceBuffer.Drain` | src/exo/utils/event_buffer.py:66-70 | every source is drained, in the order the sources first appeared |
| `EventRouter.Router.Ingest` | src/exo/routing/event_router.py:102-114 | the event goes out under the sender's next index and is entered for redelivery under its identifier |
| `EventRouter.Router.Offer` | src/exo/routing/event_router.py:145-150 | every open receiver gets the item, and exactly the closed ones are noted |
| `EventRouter.Router.SendToReceivers` | src/exo/routing/event_router.py:144-152 | the item reaches every open receiver and the closed ones are dropped |
| `EventRouter.ReceiversGetEverything` | src/exo/routing/event_router.py:144-152 | after any batch every receiver still open has all of its items in order |
| `EventRouter.Router.OnGlobalEvent` | src/exo/routing/event_router.py:116-152 | foreign events change nothing; others are buffered, taken off redelivery and handed on in order; the missing index is asked for exactly when nothing was released and no request is live |
| `EventRouter.NackDelayGrows` | src/exo/routing/event_router.py:163-169 | the first wait is half a second, each further one twice as long up to ten seconds, which the sixth reaches |
| `EventRouter.Router.BeginNack` | src/exo/routing/event_router.py:163-167 | a request that begins becomes the active one, and exactly a request that was still active gets out of reach by it |
| `EventRouter.Router.EndNack` | src/exo/routing/event_router.py:179-181 | a request that ends puts no other request out of reach and brings none back |
| `NackRequests.StraysExactly` | src/exo/routing/event_router.py:130-138 | in every run, some request is under way, never told to stop and out of reach of arrivals in order if and only if some request begins while another is active |
| `NackRequests.StrayIsNeverTold` | src/exo/routing/event_router.py:130-133 | such a request is never told to stop; it stays until it has been sent |
| `NackRequests.PromptRequestsStop` | src/exo/routing/event_router.py:154-181 | if every started request begins before the next arrival, at most one is under way that was not told to stop, and an arrival in order stops it |
| `NackRequests.FirstOfTwoIsNeverTold` | src/exo/routing/event_router.py:130-138 | a run in which two requests are started before the first begins, and the arrival in order stops the second only |
| `MasterNode.MasterProcess.Receive` | src/exo/master/main.py:496-507 | events of other sessions are discarded; the rest are buffered per origin and whatever is in order is released |
| `MasterNode.MasterProcess.LogNext` | src/exo/master/main.py:512-526 | an event gets the next log index and the master's time, and is applied, stored and broadcast under that index; one too long to store is neither stored nor broadcast |
| `MasterNode.MasterProcess.IndexNext` | src/exo/master/main.py:507-526 | one released event is indexed as the model's step says, or, if it is a trace report, set aside without an index; it raises exactly on an event too long to store |
| `MasterNode.MasterProcess.OnLocalEvent` | src/exo/master/main.py:496-526 | one local event leads to exactly the receive step and the indexing steps of the model, up to the first event too long to store, and broadcasts exactly the new log entries |
| `MasterNode.IndexedAllIsSteps` | src/exo/master/main.py:507-526 | indexing everything released is a run of the step system |
| `MasterNode.MasterProcess.Answer` | src/exo/master/main.py:458-468 | a request from an index is answered with the log from there on, at most a thousand entries, none for an index outside the log |
| `MasterNode.BroadcastAt` | src/exo/master/main.py:528-538 | the k-th message of an answer carries the log entry k places on, under its own index |
| `DiskEventLog.HeaderRoundTrip` | src/exo/utils/disk_event_log.py:37-38 | reading a four-byte big-endian length gives back the length written |
| `DiskEventLog.HeaderIsBigEndian` | src/exo/utils/disk_event_log.py:113-116 | the four bytes are the length's digits to base 256, highest first |
| `DiskEventLog.ReadsRecord` | src/exo/utils/disk_event_log.py:41-59 | at a record's offset a read yields that record and a skip arrives at the next one |
| `DiskEventLog.ShortRead` | src/exo/utils/disk_event_log.py:41-59 | a record cut short is the end of the file |
| `DiskEventLog.OffsetsStable` | src/exo/utils/disk_event_log.py:113-117 | appending moves no record |
| `DiskEventLog.CachedCorrect` | src/exo/utils/disk_event_log.py:85-89 | caching a true offset keeps every cached offset true and the cache within its bound |
| `DiskEventLog.CachedIsRecent` | src/exo/utils/disk_event_log.py:85-89 | what is cached becomes the most recent of up to 128, and only a new one pushes the least recent out |
| `DiskEventLog.CacheSurvivesAppend` | src/exo/utils/disk_event_log.py:85-117 | cached offsets stay true when records are appended |
| `DiskEventLog.EventLog.Append` | src/exo/utils/disk_event_log.py:113-117 | the log grows by the event and the bytes by its header and payload; a record of 2^32 bytes or more is refused and changes nothing |
| `DiskEventLog.EventLog.CacheOffset` | src/exo/utils/disk_event_log.py:85-89 | the offset becomes the most recent, and the least recent one goes when the cache is full |
| `DiskEventLog.EventLog.ScanStart` | src/exo/utils/disk_event_log.py:98-104 | the scan starts at the true offset of the index below the target that was used last, or at the first record |
| `DiskEventLog.StartsAtHighestExactly` | src/exo/utils/disk_event_log.py:98-104 | that is the highest cached index below the target if and only if no larger one below the target is cached than the one used last |
| `DiskEventLog.PassOverNearest` | src/exo/utils/disk_event_log.py:119-136 | two range reads after which the scan for index 7 starts at 2 although 5 is cached |
| `DiskEventLog.EventLog.SkipForward` | src/exo/utils/disk_event_log.py:106-109 | skipping record by record arrives at the target's offset |
| `DiskEventLog.EventLog.SeekTo` | src/exo/utils/disk_event_log.py:91-111 | the position is the true start of the target record, whatever is cached, and the target becomes the index used last |
| `DiskEventLog.RangeRead.Start` | src/exo/utils/disk_event_log.py:119-128 | the end of a range is fixed by the count at the first step, not at the call |
| `DiskEventLog.RangeRead.Next` | src/exo/utils/disk_event_log.py:119-136 | each step yields the next event of the range, and the end is reported once and for all |
| `DiskEventLog.ReadRange` | src/exo/utils/disk_event_log.py:119-136 | a whole range read yields exactly the slice of the log, nothing for a bad range |
| `DiskEventLog.Interleave` | src/exo/utils/disk_event_log.py:113-136 | under any interleaving of appends and partly consumed reads, every read has yielded a prefix of the slice it started on |
| `ReplicationSafety.DeliverLocalKeeps` | src/exo/master/main.py:496-507 | delivering any local message, old, early or repeated, keeps the system invariant |
| `ReplicationSafety.IndexKeeps` | src/exo/master/main.py:507-526 | indexing keeps it |
| `ReplicationSafety.SendKeeps` | src/exo/routing/event_router.py:102-114 | sending a new event keeps it |
| `ReplicationSafety.RegisterKeeps` | src/exo/routing/event_router.py:114-114 | entering an event for redelivery, even after it has come back, keeps it |
| `ReplicationSafety.DeliverGlobalKeeps` | src/exo/routing/event_router.py:116-152 | delivering any broadcast message keeps it |
| `ReplicationSafety.ConsumeKeeps` | src/exo/worker/main.py:140-145 | a consumer applying its next event keeps it |
| `ReplicationSafety.StepKeeps` | src/exo/routing/event_router.py:76-152 | every step of the system keeps the invariant |
| `ReplicationSafety.EveryReachableState` | src/exo/master/main.py:496-538 | the invariant holds in every reachable state |
| `ReplicationResults.DeliveredIsLogPrefix` | src/exo/routing/event_router.py:116-152 | in every run what a router has handed on is the first entries of its session's log, numbered from zero |
| `ReplicationResults.ReplicasArePrefixes` | src/exo/routing/event_router.py:116-152 | of two routers of one session, one has handed on a prefix of the other |
| `ReplicationResults.ConsumersHoldFolds` | src/exo/worker/main.py:140-145 | a consumer that applied k events of its session holds the fold of the first k entries of that session's log, whatever sessions came before |
| `ReplicationResults.MasterHoldsFold` | src/exo/master/main.py:522-525 | a master's state is the fold of its whole log |
| `ReplicationResults.IndexedWithTime` | src/exo/master/main.py:512-526 | indexing adds exactly one entry, the event with the time of indexing if it is gathered information, and broadcasts it |
| `ReplicationResults.ApplyNeverAsserts` | src/exo/shared/apply.py:128-136 | the index assertion holds wherever an event is applied |
| `ReplicationResults.BuffersNeverAssert` | src/exo/utils/event_buffer.py:21-25 | no message that can arrive contradicts one that is buffered |
| `ReplicationResults.LogHoldsOriginPrefix` | src/exo/master/main.py:502-526 | the log restricted to one origin is what a prefix of that origin's events leaves, in order and once each, without trace reports |
| `ReplicationResults.LogEntryWasSent` | src/exo/master/main.py:502-526 | every log entry is an event some origin sent, and never a trace report |
| `ReplicationResults.NoEventLoggedTwice` | src/exo/routing/event_router.py:76-83 | resending never puts an event in the log twice |
| `ReplicationResults.AcceptedEventsSurvive` | src/exo/routing/event_router.py:76-128 | an event entered for redelivery is still being resent or is in the log |
| `Settlement.LeavesExactly` | src/exo/routing/event_router.py:76-128 | from every reachable state, some continuation takes an event entered for redelivery off the outbox if and only if it is no trace report |
| `Settlement.LeavesUnrepeatedExactly` | src/exo/routing/event_router.py:113-128 | without a broadcast that repeats a released entry, it can leave if and only if it is no trace report and its log entry is not yet released by its router |
| `Settlement.EchoBeforeEntry` | src/exo/routing/event_router.py:113-114 | a run in which an event comes back before it is entered, and then waits for such a repeat |
| `CatchUp.ReceivesAllFeeds` | src/exo/routing/event_router.py:116-130 | whatever arrives at a router, its buffer is fed exactly the entries of its own session |
| `CatchUp.AnswerCovers` | src/exo/master/main.py:458-468 | an answer contains every entry of the thousand from the asked index on |
| `CatchUp.AnswerAdvances` | src/exo/routing/event_router.py:125-152 | an answer computed from an earlier log, arriving in any order among newer entries, moves a router past a thousand entries from the asked index or past that log |
| `CatchUp.RoundAdvances` | src/exo/routing/event_router.py:125-178 | in every run, with the log growing meanwhile: once all of an answer has arrived, the router is a thousand entries on from where it asked, or past the log as it was when answered |
| `CatchUp.RoundsCatchUp` | src/exo/master/main.py:458-468 | in every run, answered requests one after the other bring a thousand entries each until the log as of the first answer is reached |
| `StateFacts.PortsAlwaysOwned` | src/exo/shared/apply.py:259-285 | in every state a log leads to, a prefill port belongs to a known runner |
| `StateFacts.AlwaysKeyed` | src/exo/shared/apply.py:171-256 | instances, tasks and links are always stored under their own identifiers, if created tasks come under theirs |
| `StateFacts.TaskPresentExactly` | src/exo/shared/apply.py:171-209 | a task is in the state exactly if it was created and not deleted since |
| `StateFacts.InstancePresentExactly` | src/exo/shared/apply.py:212-224 | an instance is in the state exactly if it was created and not deleted since |
| `StateFacts.TrimEachLink` | src/exo/shared/apply.py:221-238 | the loop over the links keeps exactly the two-sided rests of all links |
| `StateFacts.EventKeepsLinks` | src/exo/shared/apply.py:221-256 | exactly the creation of a one-sided link leaves a link with an empty side |
| `StateFacts.LinksAlwaysTwoSided` | src/exo/shared/apply.py:221-256 | without such a creation every link always has instances on both sides |
| `StateFacts.TimedOutNodeForgotten` | src/exo/shared/apply.py:288-347 | a node that timed out is gone from topology, sightings and records, and everything of the others stays as it was, their Thunderbolt entries in order |
| `StateFacts.FailureMessageLife` | src/exo/shared/apply.py:183-209 | a failure report keeps the task's status and sets its message, which goes with the next status that is no failure |
| `EventEffects.TaskEventEffect` | src/exo/shared/apply.py:171-180 | creating and deleting a task, the whole new state |
| `EventEffects.TaskStatusEffect` | src/exo/shared/apply.py:183-198 | a new status, which clears the error unless it is a failure, and nothing else |
| `EventEffects.TaskFailureEffect` | src/exo/shared/apply.py:200-209 | a failure report sets the error and nothing else |
| `EventEffects.UnknownTaskEffect` | src/exo/shared/apply.py:183-205 | reports on unknown tasks change nothing |
| `EventEffects.InstanceEventEffect` | src/exo/shared/apply.py:212-241 | a created instance is stored; a deleted one goes, and from both sides of every link, in order, links with a side lost going too |
| `EventEffects.LinkEventEffect` | src/exo/shared/apply.py:244-256 | creating and deleting a link, the whole new state |
| `EventEffects.RunnerEventEffect` | src/exo/shared/apply.py:259-285 | a shut-down runner goes with its port; any other status is stored, and a ready runner's port if it has one |
| `EventEffects.OtherEventEffect` | src/exo/shared/apply.py:83-92 | pass-through events leave the state as it is |
| `EventEffects.EdgeEventEffect` | src/exo/shared/apply.py:473-483 | an edge comes with its endpoints; exactly the equal edge goes, if both its endpoints are known |
| `EventEffects.OtherInfoEffect` | src/exo/shared/apply.py:350-363 | gathered information adds its node and notes when it was seen |
| `EventEffects.RdmaCtlEffect` | src/exo/shared/apply.py:453-463 | whether RDMA is enabled is noted; when it is not, exactly the RDMA edges at the node go |
| `EventEffects.TbIdentsEffect` | src/exo/shared/apply.py:405-409 | a node's identifiers take the place of its earlier ones or come last |
| `EventEffects.TbConnectionsEffect` | src/exo/shared/apply.py:410-436 | the node's outgoing RDMA edges become exactly those the reported links stand for: both domains known, the identifiers listed last, both ends enabled; all other edges stay |
| `Downloads.PutReport` | src/exo/shared/apply.py:139-168 | the first report on the model is replaced in place, or the report is added |
| `Downloads.Reported` | src/exo/shared/apply.py:139-168 | there stays one report per model, and a decision sees the new state for that model and the old for every other |
| `TopologyGraph.Graph.AddNode` | src/exo/shared/topology.py:61-65 | a node is added once |
| `TopologyGraph.Graph.AddConnection` | src/exo/shared/topology.py:92-106 | an equal connection is not added again, and missing endpoints are |
| `TopologyGraph.Graph.RemoveNode` | src/exo/shared/topology.py:154-161 | a node goes with all its connections |
| `TopologyGraph.Graph.RemoveConnection` | src/exo/shared/topology.py:188-198 | exactly the equal connection goes |
| `TopologyGraph.Graph.ReplaceAllOutRdma` | src/exo/shared/topology.py:163-170 | the node's outgoing RDMA edges go and the given ones come |
| `TopologyGraph.Graph.RemoveAllRdmaTouching` | src/exo/shared/topology.py:172-186 | exactly the RDMA edges at the node go |
| `TopologyGraph.ThunderboltReportKeepsGate` | src/exo/shared/apply.py:410-436 | a report of Thunderbolt connections adds only edges between enabled nodes |
| `TopologyGraph.GatheredInfoKeepsGate` | src/exo/shared/apply.py:350-470 | no gathered information breaks the gate, disabling a node included |
| `TopologyGraph.TimeOutKeepsGate` | src/exo/shared/apply.py:288-347 | a time-out removes a node's record and its edges together |
| `TopologyGraph.EdgeEventKeepsGate` | src/exo/shared/apply.py:473-483 | an edge event keeps the gate exactly if it adds no RDMA edge with an endpoint not known enabled |
| `TopologyGraph.EventKeepsGate` | src/exo/shared/apply.py:82-125 | of all events exactly such an edge event breaks the gate |
| `TopologyGraph.RdmaEdgesAlwaysGated` | src/exo/shared/apply.py:288-470 | in every state a log of socket reports leads to, each RDMA edge has both endpoints recorded as enabled |
| `TopologyGraph.DisabledNodeHasNoRdmaEdge` | src/exo/shared/apply.py:453-463 | after a node is disabled or times out no RDMA edge names it |
| `Transition.GetTransitionEvents` | src/exo/master/placement.py:497-534 | the loops yield the creations, then per removed instance the cancellations and the deletion |
| `Transition.TransitionReachesTarget` | src/exo/master/placement.py:497-534 | folding the events gives the target exactly when shared identifiers agree, cancels exactly the pending and running tasks of removed instances, and changes nothing else but links |
| `Transition.CancellationsEffect` | src/exo/shared/apply.py:183-197 | the cancellations set exactly the listed instance's active tasks to cancelled |
| `Transition.DeletionsEffect` | src/exo/shared/apply.py:221-241 | any sequence of deletions leaves the tasks and links that deleting all at once would |
| `Transition.SurvivingLinksAreLive` | src/exo/shared/apply.py:221-241 | after removals no link names a removed instance or has an empty side |
| `Transition.LinkDroppedExactlyWhenSideGone` | src/exo/shared/apply.py:225-230 | a link goes exactly when one of its sides has lost every instance |
| `Transition.IdentifierIrrelevant` | src/exo/shared/apply.py:82-125 | an event's identifier has no part in its effect |
| `Election.Max` | src/exo/shared/election.py:222-222 | the elected message is the first of the greatest |
| `Election.SameMessagesSameElection` | src/exo/shared/election.py:27-39 | two candidate lists with the same messages, one per node, elect the same one in any order and with any repeats |
| `Election.NonCandidateWinsOnlyAlone` | src/exo/shared/election.py:61-64 | within one round a non-candidate wins exactly when there is no candidate, and the winner's seniority is the highest |
| `Election.WinnerRanksFirst` | src/exo/shared/election.py:27-39 | within one round the winner is the most senior, then has seen the most commands, then has the highest name |
| `Election.EveryListIsOneRound` | src/exo/shared/election.py:127-180 | in every interleaving the list that still takes messages holds messages of the current clock only |
| `Election.SeniorityOnlyGrows` | src/exo/shared/election.py:225-237 | seniority never falls, a non-candidate's never changes, a rise means the node won, and a winning candidate's is at least the number of messages it gathered |
| `Election.NodesAgree` | src/exo/shared/election.py:111-122 | two nodes whose rounds end with the same messages go on in the same session, each calling it new exactly if it was in another |
| `Votes.EveryOwnMessageIsTrue` | src/exo/shared/election.py:254-265 | in every run, each of a node's own messages in a list carries its seniority, session and number of commands seen when that campaign began to vote, and the campaign's clock |
| `Votes.NoCandidateWinsOnlyOverOlder` | src/exo/shared/election.py:216-232 | in every run, a node that is no candidate wins a campaign only if every candidate's message in it is of an earlier round than the campaign's |
| `Votes.NoCandidateWinsExactly` | src/exo/shared/election.py:216-232 | against candidates' messages it wins if and only if all of them are of an earlier round |
| `Votes.LateEntryBeatsCandidate` | src/exo/shared/election.py:190-216 | a run in which it does, its campaign being entered after a later round was called |
| `Election.Elector.constructor` | src/exo/shared/election.py:49-84 | a node starts in its own session, a non-candidate below every seniority |
| `Election.Elector.OnMessage` | src/exo/shared/election.py:127-157 | own messages are dropped, a later clock starts a round with the message, an earlier one is ignored, the current one is collected |
| `Election.Elector.OnConnection` | src/exo/shared/election.py:159-180 | a change of peers starts a round under the next clock |
| `Election.Elector.EnterCampaign` | src/exo/shared/election.py:187-203 | a campaign reads the clock, cancels the one before it, and waits for that one or votes at once |
| `Election.Elector.BeginVote` | src/exo/shared/election.py:200-211 | a campaign that begins becomes the one to cancel and enters its own status in its own list |
| `Election.Elector.EndCampaign` | src/exo/shared/election.py:244-252 | a campaign that ends releases only its own scope |
| `Election.Elector.FinishCampaign` | src/exo/shared/election.py:221-242 | the greatest message decides the session, seniority and the result |
| `ElectLoop.NodeLoop.OnResult` | src/exo/main.py:180-275 | one result: a new router and re-attached parts if the session is new, and promotion, demotion or neither |
| `ElectLoop.TakingAResult` | src/exo/main.py:180-275 | what a result does to every part of the node |
| `ElectLoop.PartsStay` | src/exo/main.py:225-275 | in every run a node keeps the parts it started with, and its API hears of every result's round |
| `ElectLoop.QueueTakenExactly` | src/exo/main.py:205-211 | in every run, under any interleaving, the loop gets through its queued results if and only if none elects this node under a new session right after it won under another |
| `ElectLoop.NodeFollowsElection` | src/exo/main.py:180-275 | in every run, once all results are taken, every part is in the election's session and the node is master exactly if it won |
| `ElectLoop.OwnWinner` | src/exo/shared/election.py:254-262 | a winner of the node's own is the session it has or one later than all its reigns |
| `ElectLoop.FinishKeeps` | src/exo/shared/election.py:221-252 | finishing a campaign keeps later rounds above every reign |
| `ElectLoop.OnlyTheNewestDecides` | src/exo/shared/election.py:192-198 | once the newest round's campaign has entered, only that campaign can decide, from messages of its own round |
| `ElectLoop.OrderlyRunsAreSafe` | src/exo/main.py:205-239 | while no round starts before the last one's campaign votes, every result is accepted and the node is never master twice under one session |
| `ElectLoop.OverlappingRoundsBreakTheLoop` | src/exo/shared/election.py:193-203 | a run in which messages of two later rounds arrive during a vote, both their campaigns wake when it is stopped and vote at once, and the loop's assertion fails |
| `Plan.DecisionSound` | src/exo/worker/plan.py:47-72 | every decision but a creation is warranted by the rule's condition on one of the node's own runners |
| `Plan.DecisionInOrder` | src/exo/worker/plan.py:60-72 | a decision leaves nothing undone that an earlier rule calls for, and no decision means no rule calls for anything |
| `Plan.CancelSound` | src/exo/worker/plan.py:346-362 | a cancellation is for a cancelled task of a runner's instance that was not cancelled there before |
| `Plan.CreateOnly` | src/exo/worker/plan.py:103-136 | a creation is for an instance on this node without a runner, when no other runner of it has failed or this one has |
| `Plan.PendingSound` | src/exo/worker/plan.py:300-343 | a task is started only if it is runnable, the runner has not taken it, and every runner of the instance serves; a failed look-up is on behalf of a serving runner |
| `PlanFacts.RunnerDecisionMeans` | src/exo/worker/plan.py:75-297 | a shutdown, download, connect, load or warm-up is for the first runner whose fields and view call for it, rule by rule |
| `PlanFacts.CreationMeans` | src/exo/worker/plan.py:103-136 | a creation is of the runner the first instance lacks on this node, none of it being supervised, and no other runner of it having failed unless this one has |
| `PlanFacts.CancellationMeans` | src/exo/worker/plan.py:346-365 | a cancellation is of the first cancelled task, on its first runner, not cancelled there |
| `PlanFacts.InferenceMeans` | src/exo/worker/plan.py:300-343 | a task is started for the first runner of its instance that serves and has neither completed it nor has it in progress, once all runners are seen serving and all its input is there, tasks in their order |
| `PlanFacts.NothingEarlierDue` | src/exo/worker/plan.py:47-72 | a decision leaves nothing that the fields call for under an earlier rule, and no decision nothing at all |
| `PlanFacts.NeverStartedAgain` | src/exo/worker/plan.py:330-337 | once all runners of its instance on a node have taken a task, no later decision of that node starts it |
| `BringUp.WarrantedIsSafe` | src/exo/worker/plan.py:170-297 | each rule's condition on a stale view bounds what the other runners have really reached |
| `BringUp.DecisionsAreSafe` | src/exo/worker/plan.py:47-72 | whatever a node tells its runner comes in time for the others and inside the runner's state machine |
| `BringUp.TaskKeeps` | src/exo/worker/runner/runner.py:233-301 | a runner taking up a task keeps the barriers |
| `BringUp.EveryReachableState` | src/exo/worker/plan.py:170-343 | in every run: loading only after all are connected, ranks above zero warm up after all have loaded and rank zero last, the last rank connects last, serving only once all are ready |
| `BringUpProgress.NeverStuck` | src/exo/worker/plan.py:47-72 | with up-to-date views and completed downloads some runner can rise in every reachable state that is not all ready |
| `BringUpProgress.IdleRises` | src/exo/worker/plan.py:170-217 | an idle runner connects if it is not the last rank or all others are connecting; a single one loads |
| `BringUpProgress.ConnectedRises` | src/exo/worker/plan.py:220-258 | a lowest connected runner loads |
| `BringUpProgress.LoadedRises` | src/exo/worker/plan.py:261-297 | a lowest loaded runner warms up, rank zero after the others |
| `BringUpEnds.RiseIsStep` | src/exo/worker/plan.py:47-72 | a runner that can rise does so in one step of the system, which raises the sum of all levels |
| `BringUpEnds.BringUpIsLinear` | src/exo/worker/plan.py:170-297 | however the run goes, at most 6n of its steps raise a level |
| `BringUpEnds.BringUpCompletes` | src/exo/worker/plan.py:47-72 | from every reachable state the run can go on until all runners serve, with at most 6n such steps in all |
| `BringUpProgress.MissingRunnerExactly` | src/exo/worker/plan.py:339-342 | the look-up of a runner fails exactly for a single-node instance that serves, has a runnable task, and has not been seen in its own view |
| `BringUpProgress.LookUpFails` | src/exo/worker/plan.py:339-342 | a run in which that look-up fails |
| `Allocation.AllocateProportionally` | src/exo/master/placement_utils.py:47-75 | the errors in order, and otherwise the allocation |
| `Allocation.Repair` | src/exo/master/placement_utils.py:67-73 | the repair loop, whose assertion on the greatest share always holds |
| `Allocation.LeftInRange` | src/exo/master/placement_utils.py:60-65 | flooring leaves over fewer layers than there are nodes, so the remainder loop stays in range |
| `Allocation.ByRemainderOrdered` | src/exo/master/placement_utils.py:63-63 | the order lists every node once, greater remainders first and lower index on ties |
| `Allocation.SharesSum` | src/exo/master/placement_utils.py:60-65 | before the repair the shares sum to the layer count |
| `Allocation.SharesWithinQuota` | src/exo/master/placement_utils.py:60-65 | each is the floor or the ceiling of its quota |
| `Allocation.SharesFollowMemory` | src/exo/master/placement_utils.py:60-65 | more memory never gets fewer layers, and of equal nodes the earlier gets no fewer |
| `Allocation.RepairLevels` | src/exo/master/placement_utils.py:67-73 | who had none has one, who gave is left within one of the greatest, and the rest are unchanged |
| `Allocation.AllocationComplete` | src/exo/master/placement_utils.py:47-75 | all layers are handed out and every node has at least one |
| `Allocation.RepairCuts` | src/exo/master/placement_utils.py:67-73 | after any number of the repair's turns: who had none and had a turn has one layer, all other shares are cut to one level, and the first who reach it gave one more |
| `Allocation.InversionExactly` | src/exo/master/placement_utils.py:67-73 | a node with more memory gets fewer layers than another exactly when, in the shares before the repair, the other's reaches the level and the first node is among those that give one more while the other is not |
| `Allocation.LevelExists` | src/exo/master/placement_utils.py:67-73 | there always is such a level |
| `Allocation.AllocationNearlyFollowsMemory` | src/exo/master/placement_utils.py:67-73 | more memory never falls behind by more than one layer |
| `Allocation.RepairCanInvert` | src/exo/master/placement_utils.py:67-73 | three nodes for which it does |
| `Shards.AllocateAndValidate` | src/exo/master/placement_utils.py:83-122 | no memory, too few layers, the first node that cannot hold its share, or the shares |
| `Shards.PlanNodeByNode` | src/exo/master/placement_utils.py:108-122 | with memory and layers enough the outcome is the shares if each node's memory holds its part of the storage, rounded down, and otherwise the first node whose memory does not |
| `Shards.RangesTile` | src/exo/master/placement_utils.py:219-230 | the ranges start at zero, meet and end at the last layer, so each layer has exactly one rank |
| `Shards.PositionsAreStages` | src/exo/master/placement_utils.py:165-169 | ring positions and stages of both branches correspond one to one, and the last stages are neighbours |
| `Shards.BranchesTile` | src/exo/master/placement_utils.py:174-190 | each branch runs every layer exactly once |
| `Shards.Register` | src/exo/master/placement_utils.py:216-240 | each node hosts its runner, each runner its shard, and nothing else is recorded |
| `Shards.AssignPipeline` | src/exo/master/placement_utils.py:203-240 | one pipeline over the cycle, or the reason there is none |
| `Shards.AssignBranches` | src/exo/master/placement_utils.py:140-200 | two pipelines over the halves of the ring, with the first half's shares |
| `Shards.GetShardAssignments` | src/exo/master/placement_utils.py:276-293 | which of the three forms a model and a cycle get |
| `Shards.PipelineRunsTheModel` | src/exo/master/placement_utils.py:203-240 | an assigned pipeline runs each layer on exactly one node, and every node has a layer and the memory for its share |
| `Shards.PipelineNeedsTogether` | src/exo/master/placement_utils.py:108-113 | the nodes of an assigned pipeline need no more than the storage together |
| `Shards.BranchesRunTheModel` | src/exo/master/placement_utils.py:140-200 | an assigned pair of branches runs each layer on exactly one node of each branch, every node has a layer, and every node of the first half the memory for its layers |
| `Shards.AllFitExactly` | src/exo/master/placement_utils.py:158-182 | every node has the memory for its layers if and only if the first half's shares, in the opposite order, fit the nodes of the second half |
| `Shards.SecondHalfShort` | src/exo/master/placement_utils.py:158-182 | a ring of two that is assigned although its second node has no memory |
| `Shards.SecondHalfUnchecked` | src/exo/master/placement_utils.py:158-163 | the outcome does not depend on the second half's memory |
| `ShardFacts.AssignmentMeans` | src/exo/master/placement_utils.py:194-200 | every node of the cycle hosts its own runner, every runner has its own shard, and nobody else is in the assignment |
| `ShardFacts.PipelineShardsMean` | src/exo/master/placement_utils.py:219-230 | each rank knows its place and the pipeline's length and runs its share from where the rank before ends |
| `ShardFacts.BranchShardsMean` | src/exo/master/placement_utils.py:174-190 | each half of the ring runs the same pipeline, the second in the opposite order, every field of the shards |
| `ShardFacts.PipelineOutcome` | src/exo/master/placement_utils.py:203-240 | an empty cycle, no memory, too few layers, the first node short of its part, or exactly the allocation's shards |
| `ShardFacts.BranchesOutcome` | src/exo/master/placement_utils.py:140-200 | the same for two branches, decided by the first half of the ring for both |
| `Cycles.RotationsAgree` | src/exo/shared/topology.py:273-276 | all rotations of a cycle have one canonical form |
| `Cycles.CanonicalDecides` | src/exo/shared/topology.py:273-276 | two cycles have the same canonical form exactly if one is a rotation of the other |
| `Cycles.ExtensionsAre` | src/exo/shared/topology.py:270-272 | the bounded walk finds exactly the simple paths within the bound |
| `Cycles.ExtensionsDistinct` | src/exo/shared/topology.py:270-272 | and none twice |
| `Cycles.ShortCyclesExactly` | src/exo/shared/topology.py:243-276 | the short cycles found are exactly the simple cycles within the bound that start at their lowest vertex, each once |
| `Cycles.ShortEqualsFiltered` | src/exo/shared/topology.py:243-280 | up to order and rotation they and the singletons are what filtering all cycles by length gives |
| `Cycles.GetCyclesUpTo` | src/exo/shared/topology.py:258-280 | the loops compute these, and refuse a bound below two |
| `Cycles.GetCyclesWithinBudget` | src/exo/shared/topology.py:212-241 | all cycles and the singletons, or nothing if there are more than the budget |
| `Placement.GroupByLength` | src/exo/master/placement.py:157-162 | each group holds the cycles of one length in the order they came |
| `Placement.FilterByMemory` | src/exo/master/placement_utils.py:21-37 | exactly the cycles whose nodes are all known and have the memory together |
| `Placement.SmallestPlaceable` | src/exo/master/placement.py:258-315 | the walk over the groups returns what filtering everything and taking the shortest would, and raises exactly the obstacle that search meets |
| `Placement.PlainChoiceIsUnique` | src/exo/master/placement.py:258-280 | the plain search has one outcome |
| `Placement.NothingFound` | src/exo/master/placement.py:306-315 | a bounded search smaller than the cluster reports that it was bounded |
| `Placement.SearchPlacementCycles` | src/exo/master/placement.py:165-201 | every cycle within budget, otherwise the short ones, and which of the two |
| `Placement.RotationKeepsUse` | src/exo/master/placement.py:204-226 | where a cycle starts makes no difference to whether it can be used |
| `Placement.BoundedSearchAgrees` | src/exo/master/placement.py:165-201 | whenever the bounded search finds a group, enumerating everything finds the same rings |
| `Placement.CompleteSearchAgrees` | src/exo/master/placement.py:306-315 | a bounded search that could not miss a ring fails exactly as the full one does |
| `Placement.PickIsBest` | src/exo/master/placement.py:349-415 | the cycle placed on meets the backend and RDMA demands, touches a leaf if any such does, and is best by download and then memory |
| `PlacementFacts.PlainChoiceMeans` | src/exo/master/placement.py:204-240 | what the search means: no cycle with the nodes and memory, a sharding the model never supports, none it divides over, or exactly the shortest that serve |
| `PlacementFacts.WalkMeans` | src/exo/master/placement.py:258-315 | the walk has that outcome, except that a bounded search of a larger cluster reports its bound instead of no memory or no length |
| `PlacementFacts.PickMeans` | src/exo/master/placement.py:347-415 | no backend, no RDMA, or a pickable cycle that no pickable one is ahead of by download, then memory |
| `PowerSampler.TrapezoidalEnergy` | src/exo/utils/power_sampler.py:143-161 | the trapezoid sum, or constant power for a single sample |
| `PowerSampler.TrapezoidalEnergyRange` | src/exo/utils/power_sampler.py:164-213 | the trapezoid sum over the window's points |
| `PowerSampler.WindowIsDifference` | src/exo/utils/power_sampler.py:184-213 | for increasing times a window's energy is the exact integral of the drawn power over it |
| `PowerSampler.WindowsAdd` | src/exo/utils/power_sampler.py:164-213 | for strictly increasing times windows that meet add up, wherever they meet |
| `PowerWindows.WindowsAddExactly` | src/exo/utils/power_sampler.py:164-213 | for samples in time order all windows that meet add up if and only if the first and the last sample of every time show the same power |
| `PowerWindows.AddAtRun` | src/exo/utils/power_sampler.py:184-198 | two windows that meet at the time of some samples add up if and only if the first and the last of these show the same power |
| `PowerSampler.SplitAgainstTotal` | src/exo/utils/power_sampler.py:63-87 | prefill and generation are the total and what lies before the first and after the last sample |
| `PowerSampler.PhasesMakeTotal` | src/exo/utils/power_sampler.py:63-87 | with positive power they are the total exactly if the samples span the request |
| `PowerSampler.RepeatedTimesBreakTheSum` | src/exo/utils/power_sampler.py:184-198 | samples with two at one time for which windows do not add up |
| `PowerSampler.ReadingAdds` | src/exo/utils/power_sampler.py:29-33 | a reading adds one sample at its time to every node that reports, and takes none away |
| `PowerSampler.Sampler.TakeSample` | src/exo/utils/power_sampler.py:29-33 | each reporting node gains one sample, in order of time |
| `PowerSampler.Sampler.MarkPrefillDone` | src/exo/utils/power_sampler.py:42-53 | the boundary is set once, on a fresh sample, or on the start before it |
| `PowerSampler.Sampler.Result` | src/exo/utils/power_sampler.py:55-105 | the last sample is taken at the elapsed time; every node's prefill energy is what its drawn power comes to before the boundary and its generation energy what it comes to after, which together account for the total |
| `ApiNode.ApiState.OnEvent` | src/exo/api/main.py:1975-1979 | the API's log on disk holds exactly the events its state is the fold of, one more after each; one too long to store changes neither |
| `ApiNode.ApiState.Reset` | src/exo/api/main.py:347-359 | a new session starts from an empty log, the empty state and no image sent |
| `ApiNode.ApiState.OnElectionMessage` | src/exo/api/main.py:2033-2037 | over all messages and results so far, requests are held back exactly while a message since the last result is of a later election than that result |
| `ApiNode.ApiState.Unpause` | src/exo/api/main.py:361-366 | the same holds once an election ends here, which lets requests through |
| `ApiNode.NewerElectionForgotten` | src/exo/api/main.py:361-366 | an election heard of before an earlier one ends is not waited for |
| `ImageChunks.ImageSender.TakeNew` | src/exo/api/main.py:883-894 | images whose hash was not sent before, each once, and their hashes are noted |
| `ImageChunks.NewImagesOnce` | src/exo/api/main.py:890-894 | of images with the same hash only one is sent |
| `ImageChunks.ImageSender.SendImages` | src/exo/api/main.py:873-920 | the new images' chunks, numbered over all of them |
| `ImageChunks.AllPiecesSized` | src/exo/api/main.py:900-903 | no chunk is empty or above the bound |
| `ImageChunks.PiecesCount` | src/exo/api/main.py:900-903 | an image makes one chunk for every started 512 KiB |
| `ImageChunks.AllPiecesJoin` | src/exo/api/main.py:900-903 | an image's chunks joined in order are the image |
| `ImageChunks.ChunkStore.OnChunk` | src/exo/worker/main.py:151-178 | a chunk is buffered, and the chunk that completes its command caches every image under its hash and nothing else |
| `ImageChunks.JoinImage` | src/exo/worker/main.py:169-173 | an image's chunks sorted by number and joined |
| `ImageChunks.NewImagesArrive` | src/exo/worker/main.py:151-178 | chunks in any order and number, among other commands', bring every new image that is not empty, and an image has a chunk exactly if it is not empty |
| `ImageChunks.EmptyNeverArrives` | src/exo/worker/main.py:160-178 | whatever arrives, the empty image never enters the cache of a worker that did not have it |
| `ImageChunks.RequestRunsExactly` | src/exo/worker/plan.py:319-327 | once all chunks of a request have come, its task can start if and only if none of its images is empty |
| `ImageChunks.CacheHoldsTheImage` | src/exo/worker/main.py:173-178 | what is found under an image's hash is that image |

## Left out

- Sockets, discovery, zenoh, HTTP routes, the dashboard and logging: no logic the properties need.
- Serialisation: modelled as a round trip; only the framing of records is modelled.
- Rotation of old event logs and `DiskEventLog.read_all`: file housekeeping, and a special case of a range read.
- ElectLoop.OrderlyRunsAreSafe: only for runs in which a round starts when no campaign waits to vote, because it is false of some others.
- EventRouter.NackDelayGrows: the power is exact; as a float it overflows after a thousand fruitless attempts.
- The sleeping and sending inside `_nack_request`: its bookkeeping, its delay and the index it asks for are modelled.
- Catch-up after the last broadcast is lost: a request for the log starts only when something arrives, so the code does not promise it.
- `thunderbolt_bridge_cycles`, node resources and custom model cards in the state: events that only touch them are one event that leaves the modelled state alone; download reports are modelled beside it.
- Routing of inference commands to instances and the merging of traces: scheduling policy and file output.
- A router shut down between sending an event and entering it for redelivery: such an event is not resent, and nothing is claimed about it.
- A cancellation that lands between a campaign's last wait and the send of its result: the result would be lost after the session has changed.
- ElectLoop.NodeLoop.OnResult: the shutdown and construction of the parts are one step, and what a part does while it shuts down is not modelled.
- Failure and re-creation of runners during bring-up: the barriers are about one failure-free epoch of one instance.
- The contents of tasks, the back-off counters and the retry limit of a worker: only which tasks may run enters the decision.
- Host lists, coordinator addresses and device matrices of a placement: look-ups of addresses.
- Placement.PickIsBest: how much of a model a node has downloaded is one number per cycle, and which backends and RDMA edges a cycle has are given.
- A single node picked for a placement is always given a pipeline over the ring engine: that override is left out.
- Shards.GetShardAssignments: runner identifiers are given, and the record of the model card in every shard is left out.
- Image edits: their chunks are split and counted the same way, without the hash.
- Deletion of a command's chunks once its task starts: it only frees memory.
