# A verified model of the ROS 1 Foxglove bridge

The bridge connects a ROS master to two client transports, a WebSocket server and a
remote-access gateway. Several threads share its bookkeeping: the poll thread, the SDK's callback
threads, roscpp's callback threads, the parameter worker, and one detached thread per client
service call. This project models that bookkeeping and proves what every interleaving of those
threads keeps.

`dafny verify dfyconfig.toml` checks the whole project.

## How it is built

* Shared state that several threads change is a transition system: one event is one critical
  section, or one step of the SDK, roscpp or the ROS master between two of them. Theorems speak
  about all legal event sequences, of any length. (`ChannelModel`, `ParameterQueue`,
  `ParameterShutdown`, `ServiceCallRace`, `PollLoop`; `LockOrder` does the same for lock
  operations.)
* The code's own methods and loops are in classes with the code's fields. Where there is a machine
  for them, the methods are proved to perform exactly its events, so the theorems hold of them
  (`ChannelBridge`, the queue of `TransportManager`, `PollLoop.PollThread`). The others are proved
  against functions of the old state: the worker's handlers in `TransportManager`,
  `ParameterInterface`, `ServiceCalls`, `ServiceDirectory`.
* Recursive data conversions are functions with round-trip theorems (`ParameterConversion`), and
  the percent-decoder is a loop proved against its recursive reading (`PercentDecoding`).
* Hash maps and sets are walked in any order: where the order can matter, it is a parameter of the
  event or an existentially chosen result, and the theorems hold for every order.

| file | content |
|---|---|
| `ChannelModel.dfy` | channels, ROS subscriptions, latched cache, the SDK's and roscpp's side |
| `ChannelSafety.dfy` | the invariant of that machine |
| `ChannelTheorems.dfy` | latched delivery, sharing, teardown before replacement |
| `Reconciliation.dfy` | what one round of topic discovery makes of the channels |
| `ChannelBridge.dfy` | the class with those methods |
| `ClassifierView.dfy` | what the QoS classifier sees in the middle of a critical section |
| `LockOrder.dfy` | lock programs of all threads, deadlock freedom |
| `ParameterQueue.dfy`, `ParameterRefcount.dfy`, `TransportManager.dfy` | queue and worker, subscriber counts, the class |
| `ParameterTree.dfy`, `ParameterReach.dfy`, `ParameterRequests.dfy` | the master's parameter tree, how far requests reach in it, and what they leave and are answered |
| `ParameterInterface.dfy`, `ParameterShutdown.dfy` | the backend class, and its shutdown against the worker |
| `ParameterConversion.dfy` | XML-RPC values to SDK values and back |
| `ServiceCallRace.dfy`, `ServiceCalls.dfy`, `ServiceScans.dfy` | the shared responder: all interleavings, the classes, and how their scans agree |
| `ServiceDirectory.dfy` | service advertisement, with every state others can see |
| `PollLoop.dfy` | backoff, poke and shutdown over a condition variable |
| `PercentDecoding.dfy` | the URI decoder |
| `Wrappers.dfy`, `Sequences.dfy` | what several of these need |

## What is assumed of the surroundings

* The SDK gives each new channel an id that was never used, and each ROS subscriber is a new object.
* The SDK records a client's subscription before it calls `onSubscribe`, and passes the sink of
  that client's session. A log without a sink reaches every subscription the SDK holds at that
  moment; a log with one reaches that session only. `close()` ends the channel's subscriptions.
  Otherwise `onSubscribe` and `onUnsubscribe` may come late, twice, or for unknown channels.
* Destroying a `ros::Subscriber` waits for its running callbacks; several callbacks may run.
* Each transport fires parameter subscribe and unsubscribe alternately per name; only
  `TwoTransports` and `CountsTransports` need this. `ForwardedAlternates` and `BackendAgrees`
  hold of any calls.
* The master is reliable in `ParameterShutdown` and where `Agrees` is claimed, there with valid
  names; elsewhere each call may fail. When a list is set or read, each of its items may fail by itself.
* The master keeps its parameters in one tree. Reading a namespace gives everything below it;
  setting a path makes namespaces of what is on the way; deleting removes what is below; the root is
  neither deleted nor set to a scalar; the reported names are those of the leaves. roscpp resolves
  names by an arbitrary partial function, which throws where it is undefined;
  `ParameterTree.Resolve` is its usual one, without remappings.
* In `ParameterShutdown` all names are valid and resolve to different paths.
* A client message has at most 128 nested containers around any leaf, as
  `src/param_interface.cpp:20-25` says of the SDK's parser; only
  `ParameterConversion.ReceivedRoundTripIff` needs this.
* Whitelists are arbitrary predicates on names. Definitions, type probes and creations are oracles.

## Where code and documentation differ

The model follows the code.

* `README.md:220-222`, `include/foxglove_bridge/ros1_foxglove_bridge.hpp:124-125` and the comment
  at `src/ros1_foxglove_bridge.cpp:447` describe a period that doubles from 100 ms. The code waits
  max(100, min(2^n, bound)) after the n-th poll: it stays at 100 for six polls and then goes to
  128 (`PollLoop.AboveFloorIff`, `PollLoop.DoublesIff` give the exact ranges).
* `include/foxglove_bridge/ros1_foxglove_bridge.hpp:118-120` says that the latched cache lives and
  dies with its ROS subscription. A callback of a released subscriber that is still running writes
  into the cache of the channel's next subscription, exactly if its message is latched, the release
  by onUnsubscribe has not returned, and the channel is subscribed to again
  (`ChannelTheorems.LateCallbackIff`). Such a callback can come last: then an older message of a
  publisher replaces a newer one in the cache, is the last one sent, and is what later clients are
  replayed (`ChannelTheorems.StaleReplacesFresh`, a concrete run for any two such messages). What
  latched delivery still promises is agreement of cache, last handled and last sent message; last
  handled need not be last published.
* `src/ros1_foxglove_bridge.cpp:738` replays only to a client that has a sink id. A joiner without
  one is up to date exactly if it made the ROS subscription, or every cached publisher has sent a
  latched message that it did not miss; for one that was sent nothing yet, exactly if it made the
  subscription or nothing is cached (`ChannelTheorems.JoinUpToDateIff`,
  `ChannelTheorems.FreshJoinUpToDateIff`).
* A topic whose type has no definition gets a channel without a schema, which the next round
  removes and creates anew; one with an empty type name is kept and duplicated
  (`Reconciliation.RepeatIff`, `Reconciliation.ReconciledIff`).
* `include/foxglove_bridge/param_interface.hpp:54-59` says that clients never get at the parameters
  below the bridge's own namespace. The check compares the spelled name with that namespace and a
  slash. The namespace itself is a parameter too, as are those above it, and pass; so do relative
  names (`ParameterReach.CheckRefusesIff`, `ParameterReach.NamespaceIsAParameter`,
  `ParameterReach.RelativeNamePasses`). A request keeps away from these parameters exactly if none of
  its items resolves to the namespace, or to a path above or below it
  (`ParameterReach.OwnUntouchedIff`, `ParameterReach.OwnUnreadIff`).
* `include/foxglove_bridge/param_interface.hpp:42-45` says that `shutdown` unsubscribes all parameter
  subscriptions. The flag check and the registrations of `subscribeParams` are separate steps, so a
  call already past the check can leave its names registered (`ParameterShutdown.ResidueExact`,
  `ParameterShutdown.ResidueCanStay`).

## Model

| member | source | states |
|---|---|---|
| `ChannelTheorems.LatchedDelivery` | src/ros1_foxglove_bridge.cpp:713-753 | in any run after a join that made the subscription or had a sink id, for every cached publisher the cache holds the last message handled since the subscription was made, and the client's last message from that publisher is the same |
| `ChannelTheorems.JoinUpToDateIff` | src/ros1_foxglove_bridge.cpp:738-753 | a live joiner is up to date after onSubscribe iff it made the subscription, had a sink id, or every cached publisher has sent a latched message since those the client missed |
| `ChannelTheorems.FreshJoinUpToDateIff` | src/ros1_foxglove_bridge.cpp:738-758 | a joiner that was sent nothing yet is up to date iff it made the subscription, had a sink id, or the channel is not in the latched set |
| `ChannelTheorems.UpToDateIff` | src/ros1_foxglove_bridge.cpp:739-753 | at any moment of any run, a live client is up to date iff every cached publisher has sent a latched message after those handled before its SDK subscription and before any replay to its sink |
| `ChannelTheorems.JoinerWithoutSinkIsBehind` | src/ros1_foxglove_bridge.cpp:738-758 | on every channel with something cached, a new client that joins without a sink id misses it |
| `ChannelTheorems.LatchedChannelReachable` | src/ros1_foxglove_bridge.cpp:832-851 | a concrete run to a state with a cached latched message and a new client to come, so JoinerWithoutSinkIsBehind applies to a reachable state |
| `ChannelTheorems.LateCallbackIff` | include/foxglove_bridge/ros1_foxglove_bridge.hpp:115-121 | a message of one ROS subscriber is cached for another iff it is latched, its own subscriber was released by an onUnsubscribe that has not returned, and the channel is subscribed to again; it then becomes that cache's message of its publisher |
| `ChannelTheorems.StaleReplacesFresh` | src/ros1_foxglove_bridge.cpp:770-851 | a reachable run for any two latched messages of one publisher, after which the older has replaced the newer in the cache and is the last one sent |
| `ChannelTheorems.EveryMessageOnce` | src/ros1_foxglove_bridge.cpp:739-743 | over any run in which its SDK subscription stands and its channel is advertised, its own join included, a client is sent every message handled on the channel exactly once, in order and with its content, marked with its publisher iff the connection header says "latching" is "1"; besides these only replays from the cache |
| `ChannelTheorems.CacheFollows` | src/ros1_foxglove_bridge.cpp:832-851 | as long as a channel stays subscribed to, its cache is what all the messages with "latching" at "1" handled on it, and no others, leave |
| `ChannelTheorems.RecordedStep` | src/ros1_foxglove_bridge.cpp:755-804 | a client is recorded after a step iff it has just joined an advertised channel, or was recorded and neither left nor lost its channel |
| `ChannelTheorems.SubscriptionShared` | include/foxglove_bridge/ros1_foxglove_bridge.hpp:106-122 | while one client stays and the topic is reported, the channel keeps the same live ROS subscriber through any run |
| `ChannelTheorems.StructureAlways` | src/ros1_foxglove_bridge.cpp:495-524 | in every reachable state subscriptions belong to advertised channels and have a client, and the latched set is exactly the channels with a non-empty cache |
| `ChannelTheorems.LatchedIffSeen` | src/ros1_foxglove_bridge.cpp:1171-1195 | a channel is in the classifier's set iff its present subscription has handled a latched message |
| `ChannelTheorems.RemovedForGood` | src/ros1_foxglove_bridge.cpp:706-710 | in any run a removed channel never returns and no ROS subscription is ever made for it again |
| `ChannelTheorems.TeardownBeforeReplacement` | src/ros1_foxglove_bridge.cpp:487-537 | with any events of other threads in between, when phase 3 may start all channels collected in phase 1 are closed, their subscribers destroyed, and every other live subscriber or callback belongs to an advertised channel or an onUnsubscribe that has not returned |
| `ChannelTheorems.OthersKeepChannels` | src/ros1_foxglove_bridge.cpp:526-537 | no event outside phases 1 and 3 changes the channels |
| `ChannelTheorems.ReachableInv` | include/foxglove_bridge/ros1_foxglove_bridge.hpp:169-194 | every reachable state satisfies the whole invariant: structure, cache, delivery, channel life cycle, ownership of subscribers |
| `ChannelSafety.StepKeeps` | src/ros1_foxglove_bridge.cpp:478-856 | every event keeps that invariant |
| `ChannelSafety.CacheHoldsLast` | src/ros1_foxglove_bridge.cpp:828-844 | the cache left by a history has exactly the publishers that occur, each with its last message |
| `ChannelSafety.LastAfterReplay` | src/ros1_foxglove_bridge.cpp:744-752 | a replay in any order leaves each cached publisher's message as the last one sent for it |
| `ChannelSafety.AdvertiseGrows` | src/ros1_foxglove_bridge.cpp:540-586 | phase 3 keeps every channel and gives new ones unused ids |
| `ClassifierView.ClassifierSees` | src/ros1_foxglove_bridge.cpp:1190-1193 | at any point inside any critical section the classifier's set is wrong about one channel at most, and outside it is right |
| `ClassifierView.DropEachEffect` | src/ros1_foxglove_bridge.cpp:499-519 | the small writes of phase 1 add up to dropping all stale channels from both sets |
| `Reconciliation.ReconciledIff` | src/ros1_foxglove_bridge.cpp:478-588 | after a round there is exactly one channel per reported pair and no other, iff every pair had a channel or could be advertised with a schema and no channel without a schema was kept |
| `Reconciliation.RepeatIff` | src/ros1_foxglove_bridge.cpp:556-565 | reporting the same topics again changes nothing iff every reported type that can be created has a definition |
| `Reconciliation.RoundKeepsSurvivors` | src/ros1_foxglove_bridge.cpp:499-523 | a reported pair keeps its channel with its id, an unreported one loses it |
| `Reconciliation.RoundUnderInterference` | src/ros1_foxglove_bridge.cpp:487-588 | the same for a round of the machine with any events of other threads between its phases |
| `Reconciliation.AdvertiseMatches` | src/ros1_foxglove_bridge.cpp:541-577 | after phase 3 a pair has a channel of its topic and type iff it had one, or is listed and can be created with a definition |
| `Reconciliation.AdvertiseAllFacts` | src/ros1_foxglove_bridge.cpp:541-585 | each new channel is for a listed pair that nothing offered and that could be created; it has the pair's topic, and the type as its schema iff that has a definition |
| `Reconciliation.AdvertiseKeepsUnique` | src/ros1_foxglove_bridge.cpp:541-548 | no topic and schema ever gets two channels |
| `Reconciliation.ReachableUnique` | src/ros1_foxglove_bridge.cpp:541-548 | the same in every reachable state |
| `ChannelBridge.Ros1FoxgloveBridge.constructor` | include/foxglove_bridge/ros1_foxglove_bridge.hpp:183-194 | starts in the machine's start state |
| `ChannelBridge.Ros1FoxgloveBridge.OnSubscribe` | src/ros1_foxglove_bridge.cpp:693-760 | performs exactly the machine's subscribe event, for some replay order |
| `ChannelBridge.Ros1FoxgloveBridge.ReplayLatched` | src/ros1_foxglove_bridge.cpp:744-752 | sends each cached message once, to the given sink only |
| `ChannelBridge.Ros1FoxgloveBridge.OnUnsubscribe` | src/ros1_foxglove_bridge.cpp:762-806 | performs exactly the machine's unsubscribe event |
| `ChannelBridge.Ros1FoxgloveBridge.RosMessageHandler` | src/ros1_foxglove_bridge.cpp:808-856 | performs exactly the machine's message event |
| `ChannelBridge.Ros1FoxgloveBridge.CollectStale` | src/ros1_foxglove_bridge.cpp:495-524 | the erase-while-iterating loop performs the machine's collect event; the lists hold each stale channel once and each of their subscribers once |
| `ChannelBridge.Ros1FoxgloveBridge.CloseRemoved` | src/ros1_foxglove_bridge.cpp:532-534 | performs legal close events until none is left to close |
| `ChannelBridge.Ros1FoxgloveBridge.ReleaseSubscriptions` | src/ros1_foxglove_bridge.cpp:535 | performs legal events until no subscriber is left to release: first the running callbacks of each, which find their channel gone, then its release |
| `ChannelBridge.Ros1FoxgloveBridge.AdvertiseNew` | src/ros1_foxglove_bridge.cpp:537-587 | the loop performs the machine's advertise event |
| `ChannelBridge.Ros1FoxgloveBridge.PermittedTopics` | src/ros1_foxglove_bridge.cpp:479-485 | exactly the whitelisted pairs, each once |
| `ChannelBridge.Ros1FoxgloveBridge.UpdateAdvertisedTopics` | src/ros1_foxglove_bridge.cpp:478-588 | the whole call, with the callbacks it waits for, reconciles the channels with the whitelisted topics under the exact condition above, and surviving pairs keep their channel |
| `ChannelBridge.Ros1FoxgloveBridge.ClassifyRemoteAccessQos` | src/ros1_foxglove_bridge.cpp:1168-1195 | in every reachable state, reliable iff configured so or the present ROS subscription of the channel has handled a latched message |
| `LockOrder.SectionAbove` | src/ros1_foxglove_bridge.cpp:487-537 | every critical section of every thread takes its locks in strictly increasing rank and returns them all |
| `LockOrder.SectionsOrdered` | include/foxglove_bridge/ros1_foxglove_bridge.hpp:169-191 | so does any sequence of sections |
| `LockOrder.NoDeadlock` | include/foxglove_bridge/ros1_foxglove_bridge.hpp:175-182 | after any schedule of any number of threads, all are done or some thread can step |
| `LockOrder.NoCyclicWait` | include/foxglove_bridge/ros1_foxglove_bridge.hpp:169-191 | no reachable state has a circle of threads that wait for each other |
| `LockOrder.SomeoneMoves` | src/ros1_foxglove_bridge.cpp:770-805 | whatever a thread waits for, following the holders leads to a thread that can step |
| `LockOrder.CloseUnderLockDeadlocks` | include/foxglove_bridge/ros1_foxglove_bridge.hpp:178-182 | closing a channel while the subscriptions mutex is held does deadlock against a gateway subscribe: a concrete schedule |
| `LockOrder.DestroyUnderLockDeadlocks` | src/ros1_foxglove_bridge.cpp:770-774 | destroying a subscriber while the subscriptions mutex is held deadlocks against its running callback: a concrete schedule |
| `LockOrder.ClassifierWithMutexDeadlocks` | src/ros1_foxglove_bridge.cpp:1181-1184 | a classifier that took the subscriptions mutex would deadlock against a callback that logs: a concrete schedule |
| `ParameterQueue.Linearised` | src/transport_manager.cpp:601-645 | in every interleaving executed, in hand, queued and drained operations together are exactly those enqueued before stop, in order; shutdown leaves the queue empty |
| `ParameterQueue.RespondersConserved` | src/transport_manager.cpp:401-431 | for each responder, the get and set requests made in the run are settled once each or still outstanding, and none is outstanding after stop |
| `ParameterQueue.StopEndsWork` | src/transport_manager.cpp:418-430 | after stop sets the flag nothing is accepted, at most the operation in hand finishes, and the worker, asleep or not, has two moves left at most |
| `ParameterQueue.NoLostWakeUp` | src/transport_manager.cpp:601-645 | with flag or queue changed under the mutex and notified outside it, a worker with something to do can always move by itself or is asleep with a notification on its way |
| `ParameterQueue.AcceptedIsExecuted` | src/transport_manager.cpp:614-645 | the n-th accepted operation is executed, or stop intervenes, within a bounded number of the worker's moves, whatever the others do |
| `ParameterRefcount.TwoTransports` | include/foxglove_bridge/transport_manager.hpp:273-281 | in every reachable state of a run with alternating transports, the tally of the executed operations plus the net effect of any prefix of those ahead is the number of transports whose own subscriptions and unsubscriptions leave the name subscribed after it; counts are at least 1 and the untracked branch is never reached |
| `ParameterRefcount.BalanceIsNet` | src/transport_manager.cpp:552-572 | the changes counted for operations balance, per name and transport, as their subscribe and unsubscribe lists do |
| `TransportManager.CountFieldCountsTransports` | include/foxglove_bridge/transport_manager.hpp:273-281 | the same identity for the count field of the class itself, between any two operations |
| `ParameterRefcount.UntrackedIff` | src/transport_manager.cpp:703-707 | the untracked branch is avoided iff no prefix has more unsubscriptions than subscriptions of a name, and then counts are exact |
| `ParameterRefcount.TrackedIsExact` | src/transport_manager.cpp:681-712 | while no untracked name is met, stored counts are the net numbers of subscriptions |
| `ParameterRefcount.CountsTransports` | src/transport_manager.cpp:552-572 | the counting identity on plain operation lists |
| `ParameterRefcount.ForwardedAlternates` | src/transport_manager.cpp:685-711 | for any calls at all, what is forwarded for a name alternates, subscribe first |
| `ParameterRefcount.ForwardedNet` | src/transport_manager.cpp:685-711 | forwarded calls leave exactly the counted names subscribed |
| `ParameterRefcount.BackendAgrees` | src/param_interface.cpp:259-298 | with a reliable master the backend's set is exactly the counted names it may subscribe to |
| `ParameterRefcount.TallyPositive` | src/transport_manager.cpp:708-711 | stored counts are at least 1 |
| `TransportManager.TransportManager.constructor` | include/foxglove_bridge/transport_manager.hpp:267-283 | starts in the machine's start state with no counts |
| `TransportManager.TransportManager.EnqueueParameterOp` | src/transport_manager.cpp:601-612 | performs the enqueue event and the notification; dropped without one iff shut down |
| `TransportManager.TransportManager.NextParameterOp` | src/transport_manager.cpp:616-625 | takes the front operation, or performs the exit event, and keeps the object consistent with some run |
| `TransportManager.TransportManager.WorkerTurn` | src/transport_manager.cpp:616-644 | one full turn: takes the front operation, handles it and finishes, so that the counts are again those of the executed operations; or exits |
| `TransportManager.TransportManager.ParameterWorkerLoop` | src/transport_manager.cpp:614-645 | left alone, the loop executes all queued operations in order and exits iff shut down, else sleeps; with a reliable master the backend agrees with the counts throughout |
| `TransportManager.TransportManager.DrainForStop` | src/transport_manager.cpp:421-426 | performs the drain event |
| `TransportManager.TransportManager.Stop` | src/transport_manager.cpp:401-431 | drops what is queued, lets the worker finish what it has in hand, wakes it if it sleeps and joins it, after which every responder is settled; a second call does nothing |
| `TransportManager.TransportManager.HandleGetParams` | src/transport_manager.cpp:647-656 | answers a non-empty list with the specified reading of the parameter tree, an empty one with the names of all leaves, and drops the responder iff these cannot be listed |
| `TransportManager.TransportManager.HandleSetParams` | src/transport_manager.cpp:658-679 | applies the list left to right to the parameter tree with each item failing or not by itself, answers with the values then stored for the listed names, echoes an integer with the hint of a double as that double, and never enumerates all parameters |
| `TransportManager.TransportManager.CountSubscribers` | src/transport_manager.cpp:681-688 | the loop keeps the counts equal to the tally of all changes and lists exactly the names that become counted, each once |
| `TransportManager.TransportManager.DiscountSubscribers` | src/transport_manager.cpp:699-712 | the same for unsubscriptions: lists exactly the names that are counted no longer, each once, untracked names skipped |
| `TransportManager.TransportManager.HandleSubscribeParams` | src/transport_manager.cpp:681-697 | counts, forwards first subscriptions only (each name once, and none that the backend has), and keeps the backend in agreement with the counts if the master is reliable and the names are valid; what the backend throws stays inside |
| `TransportManager.TransportManager.HandleUnsubscribeParams` | src/transport_manager.cpp:699-721 | counts, forwards last unsubscriptions only, each once, and keeps the agreement |
| `TransportManager.CountNamesTallies` | src/transport_manager.cpp:684-712 | counting an operation name by name gives the tally of all changes so far and appends exactly its own forwarded calls |
| `ParameterTree.LastEffectiveWins` | src/param_interface.cpp:206-235 | after a list is applied, a path has what the last item on it or on a path above it says, with the later items below it applied to that; otherwise what was there |
| `ParameterTree.UntouchedIff` | src/param_interface.cpp:211-234 | a list leaves a path as it is, whatever the parameters are, iff no effective item is on the path, above it or below it |
| `ParameterTree.ValueAt` | src/param_interface.cpp:224-234 | what a list makes of a path depends on what was at that path only |
| `ParameterTree.GetPut` | src/param_interface.cpp:229 | reading any path after setting another: inside the new value, above it, or unrelated |
| `ParameterTree.GetCut` | src/param_interface.cpp:227 | reading any path after deleting another |
| `ParameterTree.ResolveJoin` | src/param_interface.cpp:168 | the names that the master reports resolve to the paths they stand for |
| `ParameterReach.UnreadIff` | src/param_interface.cpp:179-202 | an answer holds nothing of a path, whatever the parameters are, iff no permitted item whose call succeeds is on the path, below it, or above it within 128 levels |
| `ParameterReach.OwnUntouchedIff` | include/foxglove_bridge/param_interface.hpp:54-59 | all parameters below the node stay as they are iff no effective item is at its namespace, above it or below it |
| `ParameterReach.OwnUnreadIff` | include/foxglove_bridge/param_interface.hpp:54-59 | an answer holds nothing of the parameters below the node iff no permitted item whose call succeeds is at its namespace, below it, or above it within 127 levels |
| `ParameterReach.CheckRefusesIff` | src/param_interface.cpp:255-257 | an absolute name in normal form is refused iff it is below the namespace or not on the whitelist; the namespace and what is above it pass |
| `ParameterReach.NamespaceIsAParameter` | src/param_interface.cpp:213-227 | for every node: an item for its namespace passes, deletes each parameter below and shows those within reach, although each is refused by its own name |
| `ParameterReach.RelativeNamePasses` | src/param_interface.cpp:255-257 | the relative spelling of a refused name passes the check and resolves to the same path |
| `ParameterReach.SpelledBelowIff` | src/param_interface.cpp:255-257 | one spelled name begins with another and a slash iff its path is below the other |
| `ParameterRequests.SetItemWins` | src/param_interface.cpp:224-230 | after a list, a path holds what the last item that takes effect there says, unless a later one touches it: nothing after a deletion, else the sent value, stored by its hint, scalars as they are and containers element by element |
| `ParameterRequests.SetIsEchoed` | src/transport_manager.cpp:666-674 | the answer shows the very value that was sent iff integers fit 32 bits, no container is empty, it is not too high and no integer is meant as a double; one that is comes back as that double, and a deleted name not at all |
| `ParameterRequests.SetLeavesAlone` | src/param_interface.cpp:211-234 | a path that no item taking effect touches keeps its value |
| `ParameterRequests.NoEffect` | src/param_interface.cpp:213-233 | an item that is not permitted, is invalid, fails or does not convert changes nothing |
| `ParameterInterface.ReadAllAnswers` | src/param_interface.cpp:178-203 | the answer lists, in request order, exactly the allowed, valid, set, convertible names whose own call succeeds; each parameter shows the value at its path, scalars as they are and containers element by element, with the hint of a double iff it is one |
| `ParameterInterface.Ros1ParameterInterface.GetParamNames` | src/param_interface.cpp:167-170 | the names of exactly the leaves of the parameter tree, each once, or a failure |
| `ParameterInterface.Ros1ParameterInterface.GetParams` | src/param_interface.cpp:160-204 | the loop computes the specified reading of the tree, over the names of all leaves iff the list is empty |
| `ParameterInterface.Ros1ParameterInterface.SetParams` | src/param_interface.cpp:206-235 | the loop performs exactly the specified actions on the tree, with one failure or success per item, invalid names included |
| `ParameterInterface.Ros1ParameterInterface.SubscribeParams` | src/param_interface.cpp:259-288 | registers the paths of exactly the permitted names whose call succeeds and that come before one whose resolution throws, and none after shutdown; the master keeps mirroring the set |
| `ParameterInterface.Ros1ParameterInterface.UnsubscribeParams` | src/param_interface.cpp:290-298 | unregisters the paths of exactly the names whose call succeeds and that come before an invalid one; the master goes on mirroring the set iff no remaining name shares a path with a dropped one |
| `ParameterInterface.Ros1ParameterInterface.Shutdown` | src/param_interface.cpp:140-158 | unregisters the paths of what was subscribed and the master accepts, once; with a reliable master that it mirrored, nothing stays registered |
| `ParameterInterface.Ros1ParameterInterface.Register` | src/param_interface.cpp:237-253 | registers the resolved name iff it resolves and the call succeeds |
| `ParameterShutdown.ResidueBounded` | src/param_interface.cpp:140-158 | in every interleaving with the worker, what stays registered after shutdown belongs to the one subscribe call that was running at the swap |
| `ParameterShutdown.OnlyAllowedRun` | src/param_interface.cpp:274-286 | in every interleaving nothing is registered or recorded that may not be |
| `ParameterShutdown.ResidueExact` | src/param_interface.cpp:259-288 | in every interleaving it is what that call had left without the names unsubscribed since; only names that were subscribed already may be missing from that, and none if the two are disjoint |
| `ParameterShutdown.ResidueOfFreshCalls` | src/transport_manager.cpp:681-697 | if every subscribe call has names that are not subscribed, each once, as HandleSubscribeParams forwards them, the residue is exactly what the running call had left without the names unsubscribed since |
| `ParameterShutdown.ResidueCanStay` | src/param_interface.cpp:259-287 | a concrete run that leaves any chosen permitted name registered |
| `ParameterShutdown.LaterCallsRegisterNothing` | src/param_interface.cpp:260-271 | a subscribe call that had not passed its flag check at shutdown registers nothing |
| `ParameterShutdown.InFlightFixed` | src/param_interface.cpp:144-151 | the swap happens once |
| `ParameterConversion.FromRosParamIff` | src/param_interface.cpp:28-78 | a parameter is readable iff its tree has supported types only and, for a container, at most 127 containers lie around any leaf |
| `ParameterConversion.FromRosParamShows` | src/param_interface.cpp:64-78 | a parameter that is read has its name, shows its value, scalars as they are and containers element by element, and has a hint iff it is a double |
| `ParameterConversion.RoundTripIff` | src/param_interface.cpp:26-117 | setting what was read always succeeds, and restores the parameter iff no container in it is empty and, if the client writes whole doubles as integers, no whole double is inside a container; at the top the hint restores it |
| `ParameterConversion.ExactRoundTripIff` | src/param_interface.cpp:26-117 | a parameter is readable and comes back unchanged iff its types are supported, no container is empty and it is at most 127 containers high |
| `ParameterConversion.ClientRoundTripIff` | src/param_interface.cpp:80-117 | for any hint, a value is accepted iff at most 128 containers high, and reads back unchanged iff its integers fit 32 bits, no container is empty, it is at most 127 high and it is not an integer meant as a double, which reads back as that double |
| `ParameterConversion.ReceivedRoundTripIff` | src/param_interface.cpp:20-26 | every value that fits into a message of at most 128 nested containers is accepted, and reads back unchanged iff integers fit, no container is empty and it is not meant as a double: the depth limit never interferes |
| `ParameterConversion.FromValueIff` | src/param_interface.cpp:28-62 | conversion from depth d succeeds iff supported and at most 128 - d high |
| `ParameterConversion.ToRosParamIff` | src/param_interface.cpp:84-112 | conversion back from depth d succeeds iff at most 128 - d high |
| `ParameterConversion.ToRosParamStores` | src/param_interface.cpp:89-114 | what is set stores the value: scalars as they are, integers by their low 32 bits or, by the hint, as doubles, containers element by element, empty ones as the default value |
| `ParameterConversion.BackAgain` | src/param_interface.cpp:80-117 | a converted value always converts back, with each empty container turned into the default value and each whole double as the client wrote it |
| `ParameterConversion.NormalIff` | src/param_interface.cpp:103-114 | that changes nothing iff there is no empty container and no whole double written as an integer |
| `ParameterConversion.ReadAgain` | src/param_interface.cpp:28-62 | at any pair of depths, what a client set reads back unchanged iff it fits, has no empty container and is not too high |
| `ServiceCallRace.ExactlyOnePlace` | include/foxglove_bridge/ros1_foxglove_bridge.hpp:97-104 | in every interleaving each responder is in exactly one of handler, slot, worker, sweep, answered; a full slot always has somebody who will look at it |
| `ServiceCallRace.AnsweredExactlyOnce` | src/ros1_foxglove_bridge.cpp:1027-1102 | once nobody has anything left to do for a request, it has been answered once on every path, or its slot is full, the bridge destroyed, and dropping the responder is its one answer |
| `ServiceCallRace.AnswersAreDeserved` | src/ros1_foxglove_bridge.cpp:1093-1101 | in every run a request gets the result iff its worker had the responder when the call succeeded, the call's error iff it had it when the call failed, a rejection iff the handler turned it down, an error for dropping iff the responder was dropped |
| `ServiceCallRace.ScanOutcome` | src/ros1_foxglove_bridge.cpp:1110-1125 | with workers racing, the erase-while-iterating scan inspects every entry once; the list is then those found open and not due, in order, the expired calls are those found open and due, in order, and every other removed entry had been completed |
| `ServiceCallRace.SeenRecords` | src/ros1_foxglove_bridge.cpp:1112-1116 | each turn of a reachable scan inspects the first entry not inspected yet and records whether its slot was full at that moment |
| `ServiceCallRace.SweepLeavesNoDue` | src/ros1_foxglove_bridge.cpp:1127-1140 | when the sweep returns, each call that was listed and due at its start is completed: its worker holds the responder, or it has been used |
| `ServiceCallRace.NoEarlyTimeout` | src/ros1_foxglove_bridge.cpp:1119-1138 | a timeout is sent only for a call listed with a passed deadline |
| `ServiceCallRace.TimeoutsAreDeserved` | src/ros1_foxglove_bridge.cpp:1119-1138 | in every run a timed-out request had been listed with a deadline not after the start of some sweep |
| `ServiceCallRace.WorkerCanAnswer` | src/ros1_foxglove_bridge.cpp:1079-1102 | concrete runs in which the worker comes first, with either outcome |
| `ServiceCallRace.SweepCanTimeOut` | src/ros1_foxglove_bridge.cpp:1090-1092 | a concrete run in which the sweep comes first and the worker then finds nothing |
| `ServiceCallRace.SweepTerminates` | src/ros1_foxglove_bridge.cpp:1105-1141 | each own step of a sweep uses up a measure that no other step raises, and a next own step always exists |
| `ServiceCallRace.StepKeeps` | src/ros1_foxglove_bridge.cpp:1022-1141 | every event of handler, worker, sweep and destruction keeps the invariant |
| `ServiceCalls.PendingServiceCall.Take` | src/ros1_foxglove_bridge.cpp:1085-1089 | takes the responder out of the slot |
| `ServiceCalls.ServiceCallTable.HandleServiceRequest` | src/ros1_foxglove_bridge.cpp:1022-1071 | rejects at once iff the service is unknown, the encoding wrong or the type information missing; otherwise lists a fresh call that holds the responder |
| `ServiceCalls.ServiceCallTable.WorkerReturns` | src/ros1_foxglove_bridge.cpp:1085-1101 | answers iff it took the responder: with the result if the call succeeded, with an error if it failed |
| `ServiceCalls.ServiceCallTable.ScanPending` | src/ros1_foxglove_bridge.cpp:1108-1126 | the erase-while-iterating loop leaves exactly the survivors in order and collects exactly the open due calls |
| `ServiceScans.ScansAgree` | src/ros1_foxglove_bridge.cpp:1108-1126 | the scan of the class keeps and collects what the racing scan does when each inspection sees the slot as it was at the start |
| `ServiceCalls.ServiceCallTable.TimeOut` | src/ros1_foxglove_bridge.cpp:1127-1140 | each expired call is answered with one timeout, in order |
| `ServiceCalls.ServiceCallTable.SweepExpiredServiceCalls` | src/ros1_foxglove_bridge.cpp:1105-1141 | undisturbed, exactly the due calls lose their responder, each answered once; all others stay |
| `ServiceCalls.DueCalls` | src/ros1_foxglove_bridge.cpp:1119-1121 | every open due call is among them, and they are open and due |
| `ServiceCalls.DueDistinct` | src/ros1_foxglove_bridge.cpp:1119-1121 | no call expires twice |
| `ServiceCalls.DueIff` | src/ros1_foxglove_bridge.cpp:1117-1124 | an entry's call expires iff it is open and its deadline has passed |
| `ServiceDirectory.ServiceDirectory.UpdateAdvertisedServices` | src/ros1_foxglove_bridge.cpp:590-691 | in every state visible to others, offered services are advertised, in the batch being removed, or were refused removal; afterwards the map is exactly the reported services that were known or were probed and added, the new ones with the probed type and the sum of its description, so callable iff it is described; the WebSocket server offers just these iff it removed every other service it offered |
| `ServiceDirectory.ServiceDirectory.RemoveGone` | src/ros1_foxglove_bridge.cpp:598-619 | exactly the unreported services go from the map, and then from each transport that does not refuse |
| `ServiceDirectory.ServiceDirectory.AddReported` | src/ros1_foxglove_bridge.cpp:622-690 | adds one service iff its probe and registration succeed, with the probed type and the sum of its description if there is one, and at the gateway iff that takes it; otherwise changes nothing |
| `ServiceDirectory.ServiceDirectory.AddService` | src/transport_manager.cpp:457-507 | succeeds iff the WebSocket server takes the service; a gateway failure is no failure |
| `ServiceDirectory.ServiceDirectory.RemoveService` | src/transport_manager.cpp:509-532 | takes the service from each transport that does not refuse, and records a service that stays |
| `PollLoop.PokeIsServed` | src/ros1_foxglove_bridge.cpp:455-476 | after a poke a cycle starts or the loop ends within four moves of the poll thread, whatever the others do |
| `PollLoop.PokeBringsCycle` | src/ros1_foxglove_bridge.cpp:455-476 | in terms of the events alone: after any pokePoll of any run, four moves of the poll thread bring the beginning of a cycle or the end of the loop |
| `PollLoop.ShutdownIsPrompt` | src/ros1_foxglove_bridge.cpp:328-340 | after the shutdown flag is set the loop ends within four moves |
| `PollLoop.ShutDownEndsLoop` | src/ros1_foxglove_bridge.cpp:328-340 | in terms of the events alone: after the destructor's step, four moves of the poll thread end the loop |
| `PollLoop.NoPeriodWaitedOut` | src/ros1_foxglove_bridge.cpp:330-337 | none of these moves waits for a period to elapse: the thread can move by itself or a notification is on its way |
| `PollLoop.WaitFollowsBackoff` | src/ros1_foxglove_bridge.cpp:447-464 | in every run the wait after the n-th cycle since the start or the last served poke is Period(n) |
| `PollLoop.CounterCountsCycles` | src/ros1_foxglove_bridge.cpp:451-464 | only a served poke restarts the counter |
| `PollLoop.PeriodBounds` | src/ros1_foxglove_bridge.cpp:451-454 | waits do not decrease and stay between 100 and max(100, bound) |
| `PollLoop.AboveFloorIff` | README.md:220-222 | the wait exceeds 100 iff at least seven polls were made and the bound exceeds 100 |
| `PollLoop.DoublesIff` | include/foxglove_bridge/ros1_foxglove_bridge.hpp:124-125 | it doubles from poll k to k+1 iff 7 <= k < 32 and 2^(k+1) is within the bound |
| `PollLoop.CapReachedIff` | src/ros1_foxglove_bridge.cpp:447-454 | it is at its bound iff the power of two has reached it, which happens by poll 32 for bounds up to 2^32 |
| `PollLoop.NextWaitShorterIff` | src/ros1_foxglove_bridge.cpp:448-454 | the wait falls without a poke only when the 64-bit counter wraps |
| `PollLoop.PollThread.KeepsPolling` | src/ros1_foxglove_bridge.cpp:353 | goes on iff neither shutdown nor the end of roscpp has come, as the machine does |
| `PollLoop.PollThread.NextPeriod` | src/ros1_foxglove_bridge.cpp:451-454 | the shift computes the machine's period |
| `PollLoop.PollThread.WaitReturned` | src/ros1_foxglove_bridge.cpp:459-464 | consumes a poke and restarts the counter |
| `PollLoop.PollThread.PokePoll` | src/ros1_foxglove_bridge.cpp:470-474 | performs the machine's poke event |
| `PollLoop.PollThread.BeginShutdown` | src/ros1_foxglove_bridge.cpp:333-336 | performs the machine's shutdown event |
| `PercentDecoding.PercentDecode` | src/ros1_foxglove_bridge.cpp:55-69 | the index loop computes the recursive decoding |
| `PercentDecoding.DecodeInvertsEncode` | src/ros1_foxglove_bridge.cpp:49-69 | decoding undoes every encoding that section 2.1 of RFC 3986 allows and that escapes every percent sign, in either hex case |
| `PercentDecoding.DecodeLength` | src/ros1_foxglove_bridge.cpp:56-68 | the output has between a third of the input's length and all of it |
| `PercentDecoding.UnchangedIff` | src/ros1_foxglove_bridge.cpp:52-66 | a string is unchanged iff it holds no well-formed escape |
| `PercentDecoding.IsHexIff` | src/ros1_foxglove_bridge.cpp:59-60 | exactly the hex digits in either case can follow the percent sign |
| `PercentDecoding.HexValueIs` | src/ros1_foxglove_bridge.cpp:61-62 | each digit counts for its place among them |
| `PercentDecoding.FirstEscape` | src/ros1_foxglove_bridge.cpp:58-66 | everything before the first well-formed escape, malformed ones included, is copied, and that escape becomes one byte |

## Left out

- The SDK and roscpp inside: sockets, XML-RPC transport, LiveKit, Draco and video. Only the assumptions above are used.
- Regular expressions, TLS files, option plumbing, logging, capability flags and encoder names: configuration.
- `retrieveServiceType` networking and `ros_babel_fish` look-ups: oracles here.
- `onClientAdvertise`, `onClientUnadvertise`, `onClientMessage`: only their locks are modelled (in `LockOrder`).
- The connection graph, `fetchAsset` apart from its decoder, the sysinfo publisher, and the poll thread's master queries, whose results are parameters.
- The `paramUpdate` endpoint that pushes changed values to clients.
- Timing and fairness: progress is stated as a bound on a thread's own moves together with an enabled next move.
- ChannelBridge.Ros1FoxgloveBridge.UpdateAdvertisedTopics: no other thread steps in between but the callbacks that it waits for; `ChannelTheorems.TeardownBeforeReplacement` and `Reconciliation.RoundUnderInterference` cover the interleavings.
- ServiceCalls.ServiceCallTable.SweepExpiredServiceCalls: assumes that no worker takes a responder during the sweep; `ServiceCallRace` covers the races.
- ParameterShutdown.ResidueExact: for a name that was subscribed already and is subscribed once more by the running call, whether it stays depends on which of the two threads calls the master last; the bounds leave it open.
- TransportManager.TransportManager.Stop: no other thread but the worker steps in between; `ParameterQueue.StopEndsWork` and `ParameterQueue.RespondersConserved` cover the rest.
- TransportManager.TransportManager.ParameterWorkerLoop: nobody enqueues while it runs; `ParameterQueue` has the interleavings.
- ParameterConversion.RoundTripIff: doubles are real numbers without rounding, and the JSON text itself is not modelled.
- ParameterRefcount.TrackedIsExact: counts are unbounded integers, where the code uses int.
- ParameterInterface.Ros1ParameterInterface.SetParams: no other writer changes the parameter tree in between. Registering and unregistering names have one outcome per name and call.
- ParameterReach.OwnUnreadIff: name remappings and the parameter cache of roscpp are not modelled; resolution is any function of the name.
- LockOrder.SectionAbove: the lock programs are transcribed from the code by hand; roscpp's own internal locks are not ranked.
- Clients that unsubscribe and resubscribe before their callbacks have run: the delivery promise is made for each SDK subscription separately, by a token that is not in the code.
