# Helix cluster: verified models

This project models the parts of the Helix cluster whose correctness depends on ordering, sharing
or encoding, and proves what they promise. Each part is a model of one component and a set of
theorems over all its inputs, runs or interleavings.

**The register scenario** (`Porcupine`, `RegisterSpec`, `RegisterSim`, `RegisterProofs`,
`RegisterTheorems`, `RegisterServe`, `RegisterCutoff`, `RegisterTorn`, `RegisterFaulty`,
`RegisterActors`). A primary serialises reads and writes over a network that reorders messages, and a
backtracking checker judges the recorded history. The checker decides linearizability exactly. Every run of the correct primary is
linearizable, whatever the delivery order, and the faulty primary is rejected. Which message is
delivered next is an arbitrary choice among those in flight, which covers every latency and stall.

**The advisory lock manager** (`AdvisoryModel`, `AdvisoryInvariants`, `AdvisoryQueue`,
`AdvisoryTheorems`, `AdvisoryGrants`, `AdvisorySections`, `AdvisoryWaiting`, `AdvisoryManned`,
`AdvisoryManager`). Every critical section is one step, the
clock is any monotone sequence of readings, and a blocking call is split where the code drops its
lock. `LockManager` is the object with its maps and lists; each method refines one step.

**The fault proxy** (`FaultProxy`, `FaultProxyTheorems`, `FaultProxyStreams`, `FaultPump`). Handlers, pumps, cuts, heals
and the close are interleaved steps over two sockets per connection. The copy loop is a method over
its reused buffer.

**The edge gateway** (`Routing`, `RoutingScript`, `GatewayTable`, `Gateway`, `GatewayCore`,
`GatewayServe`, `Topics`, `Envelopes`, `Bytes`, `Frames`, `FrameStreams`). The routing table keeps its
slices in the heap, with appends into spare capacity and in-place removal. Sending to an in-process endpoint is one atomic step. The JSON
codec is an arbitrary pair of functions that is lawful: encoding may fail, and decoding what was
encoded gives an envelope with the same routing fields.

**Cluster composition** (`PairRoute`, `ClusterRoute`, `SinkCache`, `SinkTheorems`, `SinkStale`,
`SinkReplaced`, `BringUp`). Route calls and network routes are interleaved steps. Outcomes of external calls (dialing, listening,
starting a host, bootstrap) are arbitrary.

`Options`, `Lists` and `Sets` hold what several parts share.

`dafny verify dfyconfig.toml` checks the whole project.

## Where a promise needs a condition

- A run cut off between its third delivery and its last can be rejected although the primary is
  correct: an applied but unanswered write is missing from the history. `CutoffExact` gives the exact
  budgets.
- A `Heal` that overlaps a `Partition` defeats it. `SilentExactly` says which states are silent.
- A cancelled `Route` leaves its envelope in the pair's inbox and shifts every later answer by one.
  `PairRoute.OwnExactly` and `StuckExactly` give the exact conditions.
- Evicting a sink does not protect the next route from an envelope that is still on the wire, or
  that reaches the replacement as well. `SinkTheorems.OwnExactly` and `SinkStale.StaleExactly` give
  the exact conditions.
- A failed bring-up leaves the joiner that could not start with the anchor as its bootstrap peer.
  `NodeCluster.FailedStart` says which agents are untouched.
- An `ensureSink` that read the network state before shutdown can store into a discarded map.
  `PanicExactly` says when.
- A blocking lock call can come back without a lock and without being cancelled.
  `AdvisoryWaiting.RefusedExactly` says when.
- A dispatch that names no node, by id or by topic, goes to the connections registered without a node
  id, if there are any. `Core.ReceiversExactly` says so.
- The envelope's documentation calls a set topic authoritative for routing (edge/gateway/envelope.go
  lines 80 to 82). The code looks at the destination first (edge/gateway/gateway.go lines 269 to 272),
  and so does the model.
- The same documentation says a dispatch without a destination is rejected (lines 76 to 78). The code
  rejects it only when the topic is empty too (line 115), and so does the model.

## Model

| member | source | states |
|---|---|---|
| Porcupine.CheckOperations | pkg/porcupine/package.go:104-272 | the checker accepts a history if and only if it has a legal sequential order that respects real time, and on rejection names an operation of the history that a longest order the search can place leaves over |
| Porcupine.Search.Find | pkg/porcupine/package.go:174-262 | the backtracking search succeeds if and only if the unplaced operations can be ordered from the given state, restores every mark, and after a failure no order from here goes deeper than the deepest dead end on record |
| Porcupine.Search.TryAll | pkg/porcupine/package.go:203-237 | trying each eligible operation in turn finds an order exactly when there is one, else the configuration is recorded as a dead end no order from it outruns |
| Porcupine.Search.Try | pkg/porcupine/package.go:208-228 | an operation passes the real-time test, the model step and the search below it if and only if it can come next in some order; if not, no order that starts with it goes deeper than the record |
| Porcupine.Search.KnownDeadEnd | pkg/porcupine/package.go:180-191 | a hit in the table of dead ends proves that no order exists from here and none goes deeper than the record, so pruning changes neither the verdict nor the witness's depth |
| Porcupine.Search.RecordDeadEnd | pkg/porcupine/package.go:231-259 | a recorded configuration really has no completion, and at a new depth the witness is an unplaced operation, the first one that passes the real-time test if any does |
| Porcupine.GoodChoiceCompletes | pkg/porcupine/package.go:203-229 | an operation that may come next and whose remainder can be ordered gives an order of the whole |
| Porcupine.CompletableHasGoodChoice | pkg/porcupine/package.go:193-229 | if any order exists, one starts with an operation called no later than the earliest pending return |
| Porcupine.EqualStatesCompletable | pkg/porcupine/package.go:127-141 | states identified by a lawful Equal admit the same completions |
| Porcupine.EqualStatesBounded | pkg/porcupine/package.go:127-141 | states identified by a lawful Equal can be extended equally far |
| Porcupine.Search.AllBoundedIsBounded | pkg/porcupine/package.go:203-237 | when every eligible choice is bounded in depth, so is every order from the configuration |
| Porcupine.SortByWindow | pkg/porcupine/package.go:105-112 | sorting by call then return keeps exactly the operations of the history |
| RegisterSpec.LegalIsAllFit | cmd/dst-sim/scenario.go:56-85 | a sequence is legal for the register if and only if every write is acknowledged and every read returns the last value written before it |
| RegisterSpec.LastWrite | cmd/dst-sim/scenario.go:56-85 | the register's value after a sequence was put there by a write that no later write overtook, or is the initial one |
| RegisterSpec.StaleReadRejected | cmd/dst-sim/scenario.go:56-85 | with distinct write values, a read of v1 called after an acknowledged later write of v2 has no linearization |
| RegisterSpec.UnwrittenValueRejected | cmd/dst-sim/scenario.go:69-78 | a read of a value that is neither initial nor written in the history has no linearization |
| RegisterSpec.RegModelIsLawful | cmd/dst-sim/scenario.go:83 | the model's Equal only identifies states that no operations can tell apart, which is what the checker's pruning needs |
| RegisterProofs.StepKeepsShape | cmd/dst-sim/scenario.go:110-209 | every delivery, in any order, keeps the bookkeeping: one message per pending request, histories and windows match the log of applied requests |
| RegisterProofs.StepKeepsSound | cmd/dst-sim/scenario.go:110-148 | every delivery to a correct primary keeps the log of applied requests legal for the register and its stored value equal to the log's outcome |
| RegisterTheorems.AppliedLinearizable | cmd/dst-sim/scenario.go:110-209 | in every reachable state, for every delivery order and request count, the completed operations plus exactly the requests whose answer is in flight, answered as the primary answered them, are linearizable |
| RegisterTheorems.EveryStateLinearizable | cmd/dst-sim/scenario.go:110-209 | in every reachable state the completed operations plus exactly the writes already applied and not yet recorded are linearizable |
| RegisterSpec.ReadCanBeDropped | cmd/dst-sim/scenario.go:69-78 | a history that is linearizable with one more read is linearizable without it |
| RegisterTheorems.DrainedRunLinearizable | cmd/dst-sim/scenario.go:110-209 | once the network is empty the completed operations alone are linearizable |
| RegisterTheorems.EveryRunEnds | cmd/dst-sim/scenario.go:162-209 | each pending request owns exactly one message, pending never exceeds the primed count, the potential drops by one per delivery, and the network is empty exactly after two deliveries per request with all of them recorded |
| RegisterTorn.CutoffExact | cmd/dst-sim/scenario.go:234-293 | a correct primary is accepted on every run under a step budget if and only if the budget is under three steps, covers two deliveries per request, or requests never overlap; the same holds when messages are delivered in order of issue up to one position |
| RegisterTorn.UnsafeBudget | cmd/dst-sim/scenario.go:269-292 | for every budget in between there is a run of the correct primary, delivering in order of issue up to one position, whose recorded history is rejected |
| RegisterCutoff.OneAtATimeLinearizable | cmd/dst-sim/scenario.go:186-209 | with at most one request in flight every cut-off run is linearizable |
| RegisterFaulty.FaultyPrimaryRejected | cmd/dst-sim/scenario.go:122-146 | the faulty primary has a run of six deliveries after which the history is rejected, and so is every continuation of it |
| RegisterFaulty.StaleForever | cmd/dst-sim/scenario.go:122-146 | once a stale read is on record, whatever else is, the history stays rejected however the run goes on |
| RegisterActors.SeededRng.IntN | cmd/dst-sim/scenario.go:214-230 | the generator steps its 64-bit state and reduces the top bits into the range asked for |
| RegisterActors.HistoryRecorder.Begin | pkg/porcupine/recorder.go:40-48 | opens a window with a fresh token at the next clock value |
| RegisterActors.HistoryRecorder.End | pkg/porcupine/recorder.go:54-68 | closes the window at the next clock value, and does nothing for an unknown token |
| RegisterActors.HistoryRecorder.History | pkg/porcupine/recorder.go:72-79 | returns exactly the finished operations in window order |
| RegisterActors.PrimaryActor.Receive | cmd/dst-sim/scenario.go:110-148 | the primary's object applies a request and sends one answer as the transition system says |
| RegisterActors.ClientDriver.IssueNext | cmd/dst-sim/scenario.go:186-209 | the driver's object issues the next request, if any remain, as the transition system says; it then steps the generator once by its written-out recurrence, and the request is a read if and only if bit 33 of the new state is 0 |
| RegisterActors.ClientDriver.Receive | cmd/dst-sim/scenario.go:162-181 | the driver's object records an answer once and issues the next request, of the kind its own draw picks |
| RegisterActors.Prime | cmd/dst-sim/scenario.go:269-274 | the four requests primed are of the kinds the first four draws of the seed pick |
| RegisterActors.DeliverKeepsInputs | cmd/dst-sim/scenario.go:186-209 | along any run, request number id is a read if and only if draw number id of the seed is even, and otherwise writes id + 1 |
| RegisterActors.Step | pkg/dst/dst.go:400-435 | one scheduler step delivers one message that was in flight |
| RegisterActors.Run | pkg/dst/dst.go:400-435 | the loop executes a run of the transition system that stops at the budget or when the network is empty, and every request it issues is of the kind its own draw of the seed picks |
| RegisterActors.RunSeed | cmd/dst-sim/scenario.go:234-293 | the verdict is whether the recorded history of the executed run is linearizable; request id of the history is a read exactly when draw id of the seed is even and otherwise writes id + 1; a correct primary passes for every seed and order when the budget is under three or at least eighty steps, and then all forty requests complete; a failing run names an operation left over by a deepest order |
| RegisterActors.Gate | cmd/dst-sim/main.go:55-87 | returns 2 exactly for an empty workload, 0 exactly when every seed passed, 1 at the first that failed; verdict i is that of a run of seed start + i under the given flag and budget; 0 for a correct primary with a sufficient budget |
| AdvisoryTheorems.LeasesNeverOverlap | internal/advisory/server.go:49-171 | on every run, under any monotone clock, no two leases on one resource hold at the same time |
| AdvisoryTheorems.EarlyEndIsByHolder | internal/advisory/server.go:92-171 | on every run a lease that ends before its expiry was ended by an unlock naming its holder |
| AdvisoryGrants.GrantsMatchLeases | internal/advisory/server.go:92-154 | on every run successful calls and leases correspond one to one, and each lease lasts from its start as long as its call asked, thirty seconds when it asked for none |
| AdvisoryTheorems.NoLostWakeup | internal/advisory/server.go:119-154 | on every run a parked call has been woken, or is registered under its resource and that resource is in the table |
| AdvisoryTheorems.SweptWaitersAreBehindLiveLeases | internal/advisory/server.go:49-64 | just after a sweep everyone still registered waits behind a lease the sweep's time has not passed |
| AdvisoryTheorems.FreedMeansWoken | internal/advisory/server.go:49-171 | whenever a step takes a resource out of the table for good, everyone parked on it is woken by that very step |
| AdvisoryTheorems.SweepRemoves | internal/advisory/server.go:49-64 | a sweep removes exactly the entries past their expiry and leaves the others as they were |
| AdvisoryTheorems.NoChannelPanics | internal/advisory/server.go:66-192 | on every run no waiter or subscriber channel is closed twice or sent to after closing |
| AdvisoryTheorems.EventsAlternate | internal/advisory/server.go:73-171 | on every run the events of a resource alternate starting with an acquisition, and it is in the table exactly when its last event is one |
| AdvisoryTheorems.SubscribersSeeTheLog | internal/advisory/server.go:73-192 | on every run a subscriber has seen an in-order part of the matching events since it subscribed, at most sixteen are buffered, and what it missed was dropped on it |
| AdvisoryWaiting.RefusedExactly | internal/advisory/server.go:119-154 | on every run a blocking call has returned without a lock if and only if it was cancelled while parked, or at a check its resource was absent or past its expiry and its next attempt found a lease that had not expired |
| AdvisoryWaiting.LostRacePossible | internal/advisory/server.go:125-131 | there is a run without any cancellation in which a blocking call is refused |
| AdvisoryWaiting.CheckParksExactly | internal/advisory/server.go:125-134 | a check parks the call on a new channel, registered last, exactly when the table has the resource with an expiry not yet passed, and sends it back to try again otherwise |
| AdvisoryWaiting.ParkedIsOpen | internal/advisory/server.go:132-134 | on every run the channel a check parks on is one that was never closed |
| AdvisoryManned.NoAbandonedWaiters | internal/advisory/server.go:119-154 | on every run each registered channel is the one some call waits on right now, for that very resource: a cancelled or woken call leaves none behind |
| AdvisorySections.TryExactly | internal/advisory/server.go:92-117 | an attempt fails exactly while an entry has not expired; otherwise a lapsed entry is announced released, the caller gets a new lease of the length asked for, and the acquisition is announced |
| AdvisorySections.ReleaseExactly | internal/advisory/server.go:156-171 | an unlock takes effect exactly for the resource's holder: the entry goes, one release is announced, every waiting channel of the resource is closed; otherwise nothing changes |
| AdvisorySections.TickExactly | internal/advisory/server.go:49-71 | a sweep keeps exactly the entries its time has not passed, announces one release per entry removed and closes exactly the channels waiting for those, in whatever order it walks the table |
| AdvisorySections.AnnouncedExactly | internal/advisory/server.go:73-90 | on every run an event is buffered for each open subscriber with a matching prefix and fewer than sixteen events waiting, dropped for a full one, and seen by no other |
| AdvisorySections.SubscriberSteps | internal/advisory/server.go:173-192 | a new subscriber listens to its prefix from now on, a removed one is closed and never announced to again, and a reader takes the oldest event |
| AdvisoryTheorems.StepKeeps | internal/advisory/server.go:49-192 | every critical section keeps the whole invariant of table, event log, subscribers and waiters |
| AdvisoryInvariants.Alternates | internal/advisory/server.go:73-117 | a log in which a resource is acquired only when free and released only when held alternates per resource |
| AdvisoryManager.LockManager.TryLock | internal/advisory/server.go:92-117 | the method refines the attempt: refused exactly while the entry has not expired, else an expired entry is released and a new lease granted |
| AdvisoryManager.LockManager.CheckOrPark | internal/advisory/server.go:125-134 | in one critical section the method parks a fresh channel exactly when the resource is in the table and its expiry has not passed, and otherwise reports it free and changes nothing |
| AdvisoryManager.LockManager.Withdraw | internal/advisory/server.go:140-151 | a cancelled call takes exactly its own channel out of the waiters |
| AdvisoryManager.LockManager.Unlock | internal/advisory/server.go:156-171 | unlock by the holder frees, announces and wakes; an unknown resource or another holder is told so and changes nothing |
| AdvisoryManager.LockManager.Sweep | internal/advisory/server.go:49-64 | the expiry loop body, in whatever order the table is walked, refines the sweep and leaves exactly the entries whose expiry has not passed |
| AdvisoryManager.LockManager.WakeWaiters | internal/advisory/server.go:66-71 | every waiter of the resource is closed, once, and the list is forgotten |
| AdvisoryManager.LockManager.Notify | internal/advisory/server.go:73-90 | each subscriber whose prefix matches is offered the event once without blocking, and no other |
| AdvisoryManager.LockManager.Subscribe | internal/advisory/server.go:173-179 | a fresh open channel is registered under its prefix |
| AdvisoryManager.LockManager.Unsubscribe | internal/advisory/server.go:181-192 | the channel is taken off its list and closed; doing it a second time panics |
| AdvisoryManager.Splice | internal/advisory/server.go:143-149 | removing position i in place is removing the first occurrence of what stands there |
| FaultProxyTheorems.PartitionSilences | chaos/netfault/faultproxy.go:184-284 | once a Partition that no Heal overlapped has returned, no byte reaches either peer of any connection until a Heal, over every interleaving of accept, dial, track, snapshot, close and pump steps |
| FaultProxyTheorems.SilentExactly | chaos/netfault/faultproxy.go:184-347 | a state delivers nothing more without a Heal if and only if no pump with an open socket to write to holds a chunk or can still read one from an open socket past its checks, and no new or waiting connection can get there |
| FaultProxyTheorems.HealInsidePartition | chaos/netfault/faultproxy.go:333-347 | a Heal between a Partition's first step and its return defeats it: a reachable state where the call has returned and bytes still pass |
| FaultProxyTheorems.BornPartitioned | chaos/netfault/faultproxy.go:106-121 | a proxy configured as partitioned delivers nothing until a Heal |
| FaultProxyTheorems.CloseDrains | chaos/netfault/faultproxy.go:354-408 | after Close has returned no connection is tracked and no byte is delivered, in that state and every later one |
| FaultProxyTheorems.CloseBoundsWork | chaos/netfault/faultproxy.go:184-296 | once Close has closed the listener, handlers and pumps take a bounded number of further steps on every run |
| FaultProxyTheorems.CloseCanReturn | chaos/netfault/faultproxy.go:354-367 | a Close that has severed what it saw can always return: some run of handler steps finishes every handler it waits for |
| FaultProxy.StepKeeps | chaos/netfault/faultproxy.go:157-426 | every step keeps what a cut has achieved in each of its phases and tracks exactly the connections between track and untrack |
| FaultProxy.SnapshotCovers | chaos/netfault/faultproxy.go:398-417 | a pump that could still write belongs to a tracked connection, so the snapshot has it |
| FaultProxy.SeverOne | chaos/netfault/faultproxy.go:418-426 | closing the client and then the server socket of the next connection brings a cut one connection closer |
| FaultPump.Pump | chaos/netfault/faultproxy.go:229-284 | what a direction writes is exactly determined: a chunk is kept if and only if its round got past its sleeps and its draw was not below its rate, and only the very last one may be cut short; a prefix of the bytes read when nothing may be dropped, all of them when no fault strikes, nothing when everything is dropped; and the loop ends exactly at the first round that calls for it |
| FaultPump.DropRateLimits | chaos/netfault/faultproxy.go:318-328 | after clamping, a rate of zero or less never drops, a rate of one or more always does, and one in between drops exactly the draws below it |
| FaultPump.OneRound | chaos/netfault/faultproxy.go:231-282 | one iteration over the reused buffer reads, keeps, writes and ends exactly as the two flags, the sleeps, the draw, the write and the read error decide |
| FaultPump.AllDropped | chaos/netfault/faultproxy.go:266-269 | when every draw is below its rate nothing is sent, however many rounds there are |
| FaultProxyStreams.StreamsFaithful | chaos/netfault/faultproxy.go:229-284 | over every interleaving each peer has been sent, in order, a part of what was read from the other, and all of it but the chunk still held when nothing of it was discarded |
| FaultProxyStreams.RefusedWhileCut | chaos/netfault/faultproxy.go:184-190 | while a cut is in force every new connection is closed without its backend ever being dialed |
| FaultProxyStreams.GoneIsClosed | chaos/netfault/faultproxy.go:184-223 | over every run a finished handler has closed the client's socket, and the backend's if it was dialed |
| FaultProxyStreams.StreamsGoOn | chaos/netfault/faultproxy.go:229-284 | a direction goes on pumping until the proxy is cut or closed or its own read or write fails, whatever becomes of the other direction and of other connections |
| Routing.AddAll | edge/gateway/gateway.go:121-135 | registering adds exactly one copy to the multiset of registrations and leaves no empty list |
| Routing.RemoveAll | edge/gateway/gateway.go:137-154 | removing takes exactly one copy away, none when there is none, and leaves no empty list |
| Routing.RemoveUndoesAdd | edge/gateway/gateway.go:121-154 | registering and removing a connection leaves the same multiset |
| GatewayTable.RoutingTable.Add | edge/gateway/gateway.go:121-135 | the two caps decide the error exactly; otherwise the connection is appended under its own id, the count stays the sum of the lists and both caps hold |
| GatewayTable.RoutingTable.Remove | edge/gateway/gateway.go:137-154 | the first occurrence is taken out in place, an emptied list is dropped, and the count stays the sum of the lists |
| GatewayTable.RoutingTable.Lookup | edge/gateway/gateway.go:159-169 | returns the connections of the id, in order, in an array of its own |
| GatewayTable.RoutingTable.constructor | edge/gateway/gateway.go:206-216 | starts empty, with the default cap in place of a cap that is not positive |
| GatewayTable.Append | edge/gateway/gateway.go:132 | appending writes into spare capacity or moves to a larger copy, with the same contents either way |
| GatewayTable.CutOut | edge/gateway/gateway.go:142-148 | the in-place removal leaves the list without its first occurrence of the connection |
| RoutingScript.SnapshotSurvives | edge/gateway/gateway.go:98-169 | a list obtained by lookup keeps its contents through any later sequence of register and unregister calls, and the table then stands for what the same calls give on a multiset |
| RoutingScript.PlayRefines | edge/gateway/gateway.go:121-154 | under any sequence of register and unregister calls the table refines a multiset with a cap on its size and on its node ids, with every connection under its own id and no empty list |
| RoutingScript.PlayCapped | edge/gateway/gateway.go:124-131 | under any sequence of calls both caps hold |
| GatewayCore.Core.Register | edge/gateway/gateway.go:229-240 | succeeds exactly when the gateway is open and neither cap is reached, and then adds the registration |
| GatewayCore.Core.Unregister | edge/gateway/gateway.go:243-245 | takes one copy of the connection out of the multiset of registrations |
| GatewayCore.Core.Route | edge/gateway/gateway.go:258-314 | each receiver gets as many copies as it is registered times and has room for, nothing else changes, the call succeeds exactly when there is a receiver and every copy was taken, and otherwise the error is that of the first receiver that refused; for a message with a destination, or a topic that names a node, the receivers are that node's connections in order of registration; a closed gateway or a malformed message reaches nobody |
| GatewayCore.Core.ReceiversExactly | edge/gateway/gateway.go:269-302 | a message with a destination, of either kind, goes to each registration of that node and to no other connection; so does one without whose topic names a node; only a status with no destination and no node in its topic goes to every registration except those of its source |
| GatewayCore.Core.DispatchIsolated | edge/gateway/gateway.go:250-281 | a dispatch never reaches connections of two nodes, nor any of a node other than its destination or the one its topic names |
| GatewayCore.Core.FanTargets | edge/gateway/gateway.go:294-303 | walking the table in any order collects every registration but the source's, with multiplicity |
| Gateway.SendAll | edge/gateway/gateway.go:282-288 | every target is tried whatever the others do, deliveries are as many as fit, and the error is that of the first target that failed |
| Gateway.OkMeansAllTaken | edge/gateway/gateway.go:282-288 | no send was refused if and only if every target took every copy meant for it |
| GatewayTable.Endpoint.Send | edge/gateway/loopback.go:111-124 | a closed endpoint or a full inbox refuses; otherwise the envelope is appended |
| GatewayCore.LoopbackTransport.Connect | edge/gateway/loopback.go:46-64 | succeeds exactly when the transport and the gateway are open, the connection cap is not reached and the node is known or the node cap is not reached; a new endpoint is registered once, and remembered for Close even when registering fails |
| GatewayCore.LoopbackTransport.Close | edge/gateway/loopback.go:67-83 | takes every connection of the transport out of the table, one copy each, and closes it; a second call does nothing |
| Envelopes.UnaddressedHasNoNode | edge/gateway/envelope.go:93-103 | an envelope with neither destination nor topic resolves to no node |
| Envelopes.DerivedTopic | edge/gateway/envelope.go:93-103 | a topic derived from the destination names exactly that node, for both extractions, and matches the all-nodes filter of its own kind only |
| Envelopes.DestinationOfTopic | edge/gateway/gateway.go:269-272 | addressing by a node's topic reaches that node, and an explicit destination wins over the topic |
| Envelopes.DestinationExactly | edge/gateway/gateway.go:174-184 | the destination is the explicit one, else the node whose name stands between the root and the next separator of the topic, else none |
| Envelopes.WellFormedExactly | edge/gateway/envelope.go:108-118 | with an id and one of the two kinds only a dispatch that names neither a node nor a topic is malformed |
| Topics.SplitJoin | edge/mqttclient/topics.go:61-62 | joining parts without separators is undone by splitting |
| Topics.JoinSplit | edge/mqttclient/topics.go:61-62 | splitting is undone by joining, for every string |
| Topics.NodeIdExactly | edge/mqttclient/topics.go:61-74 | extraction yields an id if and only if the topic is one of the two topics of that id and the id is one concrete level |
| Topics.ValidIdRoundTrips | edge/mqttclient/topics.go:33-74 | for every valid node id extraction inverts both constructors |
| Topics.TopicsDistinct | edge/mqttclient/topics.go:33-41 | topics of different ids or different segments differ, for any ids |
| Topics.TopicsWildcardFree | edge/mqttclient/limits.go:45-80 | the topics of a valid id hold no wildcard |
| Topics.ValidIsConcrete | edge/mqttclient/limits.go:45-80 | a valid id is one level, not empty and not a wildcard |
| Topics.AllNodesFilters | edge/mqttclient/topics.go:46-54 | under section 4.7 of MQTT 3.1.1 the all-nodes filters match exactly the topics with one level in the place of the id |
| Topics.SubscriptionsStayUnderRoot | edge/mqttclient/limits.go:87-101 | whatever an accepted subscription matches lies under helix/edge/ |
| Topics.AcceptedSubscriptions | edge/mqttclient/limits.go:87-101 | the all-nodes filters and both topics of every valid id are accepted, and a topic is accepted if and only if it lies under helix/edge/, has no multi-level wildcard and is not too long |
| Topics.HashMatches | edge/mqttclient/limits.go:82-101 | the filters that are refused: a multi-level wildcard after the root would match the root and everything under it |
| Topics.ValidNodeIdsExactly | edge/mqttclient/limits.go:45-80 | the valid ids are those of one to 128 letters, digits, dashes, underscores and dots |
| Topics.TopicTexts | edge/mqttclient/topics.go:33-41 | the two topics of an id, written out |
| Topics.GatewayNodeExactly | edge/gateway/gateway.go:174-184 | the gateway takes an id if and only if it stands between the root and the next separator |
| Topics.ExtractionsAgree | edge/gateway/gateway.go:174-184 | the gateway's extraction agrees wherever the stricter one succeeds |
| Frames.ParseExactly | edge/gateway/quic_transport.go:124-138 | a frame is read as a block and a remainder if and only if the stream is that block's frame followed by that remainder, for blocks of one byte to 8 MiB |
| Frames.FrameExactly | edge/gateway/quic_transport.go:124-138 | a frame is read exactly when four length bytes, the first most significant, announce one byte to 8 MiB and that many follow |
| Frames.ServedWell | edge/gateway/quic_transport.go:206-249 | whatever the bytes, a served node has an id, and every envelope routed for it is well formed and carries a source |
| Frames.UniquelyDecodable | edge/gateway/quic_transport.go:72-138 | two frame lists that give the same bytes are the same list |
| Frames.ReadAllWritten | edge/gateway/quic_transport.go:72-104 | envelopes that can be written are read back in order from one frame each, then whatever the rest of the stream holds |
| Frames.SessionRoundTrip | edge/gateway/quic_transport.go:206-249 | a hello and any list of encodable envelopes is served as exactly that node id and that list, in order, with the source filled in where empty, and bytes after it that start no frame add nothing |
| Frames.SessionGrows | edge/gateway/quic_transport.go:72-87 | writing one more frame after a session gives the session of the longer list |
| Frames.SurvivesTheWire | edge/gateway/envelope.go:123-142 | an envelope that encodes comes off the wire with its routing fields and its destination unchanged |
| FrameStreams.WriteRawFrame | edge/gateway/quic_transport.go:109-120 | writes the whole frame or reports failure, having written nothing for an oversized block and otherwise a prefix of the frame |
| FrameStreams.WriteFrame | edge/gateway/quic_transport.go:72-87 | succeeds exactly for a well-formed envelope that encodes, fits a frame and fits the writer, with exactly its frame on the stream; one that is malformed, has no encoding or is too large writes nothing |
| FrameStreams.ReadRawFrame | edge/gateway/quic_transport.go:124-138 | reads exactly one frame off the stream or fails |
| FrameStreams.ReadFrame | edge/gateway/quic_transport.go:90-104 | reads exactly one valid envelope off the stream or fails |
| GatewayServe.ReadPump | edge/gateway/quic_transport.go:311-326 | routes through the gateway, in order and with the source filled in, exactly the envelopes before the first frame it cannot take |
| GatewayServe.ServeConn | edge/gateway/quic_transport.go:206-256 | turned away exactly when the hello is invalid, the transport is closing or the gateway does not register it; otherwise the whole session is routed in order to its receivers and the registration is undone |
| Bytes.Get32Put32 | edge/gateway/quic_transport.go:80-95 | the big-endian length reads back as written |
| Bytes.Put32Get32 | edge/gateway/quic_transport.go:92-95 | every four-byte header is the encoding of the length it is read as |
| Bytes.MostSignificantFirst | edge/gateway/quic_transport.go:80-95 | headers compare from their first byte on: it is the most significant one |
| PairRoute.InboxBalanced | clusternode/cluster.go:245-257 | over every interleaving envelopes come out in the order they went in, the inbox holds one per waiting call and one per call cancelled after its send, and without cancellations it is empty between calls |
| PairRoute.OwnExactly | clusternode/cluster.go:245-257 | a call that runs on its own receives its own envelope if and only if no earlier call was cancelled after its send |
| PairRoute.EachReturnedOnce | clusternode/cluster.go:249-254 | no envelope is returned by two calls and each was sent by a call of the pair |
| PairRoute.SwapPossible | clusternode/cluster.go:245-254 | two concurrent calls can receive each other's envelope |
| PairRoute.StuckExactly | clusternode/cluster.go:245-257 | with no call waiting, every later call is refused for good if and only if sixteen calls were cancelled after their send |
| ClusterRoute.PairCache.RouteConn | clusternode/cluster.go:267-285 | the connection for a destination, the node itself included, is made and registered once and reused afterwards; there is none exactly when it is not cached and the transport or the gateway cannot take a new one |
| ClusterRoute.PairCache.Route | clusternode/cluster.go:217-258 | one call through the gateway objects returns the oldest of the inbox and its own envelope and leaves the rest, its own on a first call; it succeeds if and only if it is not cancelled, a connection is cached or can be made, the gateway is open and the inbox has room; a route to the node itself also needs and uses room in its own endpoint |
| SinkTheorems.EvictedClosedOnce | clusternode/network.go:193-208 | over every interleaving a client is closed by eviction at most once, only if it was evicted, and exactly once when its evictor is through |
| SinkTheorems.CachedIsOpen | clusternode/network.go:156-208 | a cached client is open and no eviction under way will close it |
| SinkTheorems.OnlyUsersEvict | clusternode/network.go:193-208 | on every run a cached client leaves the cache only at shutdown or by an eviction of a route that used that very client |
| SinkTheorems.NeverHandedOutAgain | clusternode/network.go:156-208 | a route that does not hold a client when it is evicted, even one that has begun, never holds it later, and what it returns was delivered to the client it does hold |
| SinkReplaced.FailedRouteEvicts | clusternode/network.go:356-370 | on every run a route that sent its envelope comes back with an error only when the client it received on is out of the cache, and that client never gets back in |
| SinkReplaced.EvictedIsClosed | clusternode/network.go:193-208 | on every run an evicted client is closed once the route that evicted it is through |
| SinkReplaced.EnsureExactly | clusternode/network.go:156-182 | a cached client is reused without dialing; without one a dial gives a client never used before, and caches it |
| SinkReplaced.StopExactly | clusternode/network.go:214-223 | a shutdown closes every cached client and empties the cache |
| SinkStale.StaleExactly | clusternode/network.go:311-370 | an envelope that was delivered, to an evicted client or any other, is returned by some later route on some run if and only if it waits unread in a client that is still cached |
| SinkStale.ReturnedWasDeliveredElsewhere | clusternode/network.go:324-370 | a later route never returns an envelope that was delivered to evicted clients only |
| SinkStale.DeliveredToBoth | clusternode/network.go:360-368 | an envelope delivered to an evicted client and to its replacement is returned by a route that begins after the eviction |
| SinkTheorems.OwnExactly | clusternode/network.go:311-370 | a route that runs alone is sure to return its own envelope if and only if nothing for its node is on the wire or unread in its cached client when it starts |
| SinkStale.EvictionIsNotEnough | clusternode/network.go:360-368 | after an eviction the next route can still return the earlier route's envelope, when that one was still on the wire |
| SinkTheorems.PanicExactly | clusternode/network.go:156-182 | a step panics if and only if it stores a freshly dialed client after shutdown has discarded the cache |
| SinkTheorems.PanicPossible | clusternode/network.go:156-223 | such a step is reachable |
| SinkCache.StepKeeps | clusternode/network.go:156-235 | every step keeps the cache, the clients, the close duties and the receipts in order |
| BringUp.NodeAgent.Start | clusternode/nodeagent.go:141-173 | succeeds exactly when neither started nor stopped before and both subsystems come up, and otherwise changes nothing |
| BringUp.NodeAgent.Stop | clusternode/nodeagent.go:180-225 | idempotent: a started agent goes offline with its server, and stays stopped |
| BringUp.NodeAgent.StartServer | clusternode/network.go:83-125 | succeeds exactly on a running agent whose server runs already or can be bound |
| BringUp.NodeCluster.Start | clusternode/cluster.go:109-160 | succeeds exactly when every agent can be started and seeded, each joiner then having the anchor as its one bootstrap peer; on failure every agent this call brought up is stopped and no other is started or stopped, for any size and failure point |
| BringUp.NodeCluster.FailedStart | clusternode/cluster.go:140-147 | after a failed Start an agent it did not bring up is as before if and only if it is the anchor, comes after the one that failed, or already had the anchor as its one peer; only the bootstrap list can differ |
| BringUp.FailedJoinerKeepsAnchor | clusternode/cluster.go:142-145 | a failed Start does touch an agent it never brought up: the joiner that could not come up keeps the anchor as its bootstrap peer |
| BringUp.NodeCluster.StartAgain | clusternode/cluster.go:109-160 | a second Start succeeds if and only if the first failed at the anchor and every agent can now be started and seeded |
| BringUp.NodeCluster.StartServers | clusternode/network.go:254-289 | either every server is up, or exactly the servers that ran before the call run |

## Left out

- The text form of the simulator's messages and its parsing: requests and answers are values.
- The simulator's latencies, disk stalls and trace.
- The bit-mask text used as the checker's memo key: the marks themselves are the key.
- Which of several deepest dead ends the checker takes its witness from: only that the witness is left over by one of them.
- Timestamps in lock events, and lock ids as random text: a lock id is the lease's position.
- The gRPC wrappers around the lock manager: argument checks only.
- Wall-clock durations of latency, throttle and read deadlines in the fault proxy: a sleep is a step that a close may interrupt.
- Half-closing a socket after its pump has finished: no pump writes to that socket afterwards.
- The fault proxy's and the sink cache's objects in place: their threads race, so both are transition systems on values.
- The window in the endpoint's send between its closed check and the channel operation: one atomic step here.
- Closing the gateway's list of transports: one call per transport over LoopbackTransport.Close.
- Interleaved routes from a node to itself: `PairRoute` covers two different nodes, `PairCache.Route` one call of either kind.
- RegisterActors.Step: any message in flight may come next, because the event queue's time and sequence order are not modelled.
- RegisterActors.Run: runs the steps above, so it covers every order of the event queue and others.
- GatewayServe.ServeConn: the connection's outgoing side is an endpoint with a bounded inbox, because its stream's writes are not modelled there.
- A new network server after a rollback on the same agent: the sink cache covers one server's lifetime.
- Node ids and subscription topics are measured in characters, not bytes: for ids the two differ only where the characters are rejected anyway, for topics in the length limit.
- WebSocket, MQTT and QUIC sockets, deadlines and pings: input and output over other libraries.
- JSON encoding, raft, durable recovery, leader election, discovery, service mains, command-line tools and hardware detection.
