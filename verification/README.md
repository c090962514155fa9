# RMQTT: a verified model of the broker's core

RMQTT is an MQTT broker.  This project models the parts of it that keep state under load and in a
cluster, and proves what they promise.  `dafny verify dfyconfig.toml` checks all of it.

The parts, from the bottom up:

- **Topics** (`Topics`).  Topics and filters as sequences of levels, with the matching rule of
  MQTT 5.0 (sections 4.7.1 and 4.7.2) stated position by position.
- **The retain tree** (`RetainTree`, `RetainMatch`, `RetainIndex`, `RetainStorage`).  A trie of
  topics asked with wildcard filters.  It refines a flat map: insertion, removal and conditional
  removal are update, delete and filter; a query lists exactly the matching topics, each once.
- **The message store** (`StoredMessages`, `StoredReplay`, `MessageStore`).  Messages, index,
  forwarding records, expiry heap and byte counter, kept in step by every operation, with
  at-most-once replay over whole runs.
- **The filter index** (`TopicIndex`).  The dual trie, of filters asked with topics, and its lazy
  iterator, which is shown to yield what an eager walk would, hence each matching filter once.
- **Routing and replication** (`RoutingTable`, `ClusterLog`, `ClusterRouter`, `RouterMatches`).
  The subscription table, the Raft state machine over it with a per-client handshake lock, replicas
  with different clocks, snapshots.
- **Shared subscriptions** (`SharedChoice`, `SharedNode`, `SharedCluster`).  The random choice of a member,
  made on each node and again across the cluster, with every outcome the draws allow.
- **Session delivery** (`DeliverQueue`, `InflightWindow`, `SessionWill`, `Takeover`).  The bounded
  queue with its wake-up tokens, packet identifiers, the in-flight window and its retry timer, the last
  will over a session's life, and taking a session over with its messages and subscriptions.
- **The per-client lock** (`ClientLock`).  A map of mutexes whose holders remove their own entry.

`Wrappers`, `Listings` and `Sums` hold an option type, facts about sequences, and facts about finite
maps.

## How the code is modelled

Objects that update their fields are classes; each method is proved against a function or relation
on values, and the properties of whole runs are proved about those.  Where the code iterates over a
hash map or draws a random number, the model takes any order and any draw.  The clock, and whether an
outgoing send succeeds, are inputs.  Where a task waits for a lock it holds itself, the state says so and
nothing further happens.

Taken as given: `TopicLevel` parsing is injective and accepts only filters with '#' in last place;
publications carry topic names without wildcards and with at least one level; `DequeBTreeMap` is a map
with some front; a `BinaryHeap` pops in order; bincode decoding undoes encoding; a filter or topic that
does not parse is represented by `Malformed` or `None`.  Counters and sizes are unbounded integers,
except the 16-bit packet identifier counter, whose wrap-around is modelled.

## Where the code does less than one might expect

Each of these is a lemma about the code as it is, with the exact condition under which the expected
property holds.

- `LookupExactIff`: the message store's lookup overreaches.  With a filter such as `a/+/#` it fetches
  messages published to `a`, because the message id stands in for the missing level.  It is exact
  precisely for filters that do not have at least two levels before '#' with '+' or a message id as the
  last of them.
- `ChoiceKeptIff`, `ServedIff`, `ChoiceCanBeLost`: when an MQTT 5 client is matched twice on a node, its
  second relation is absorbed by the first.  If the absorbed one was a shared group's choice, that node
  loses it.  A group is certain of its message exactly if some node with a member as good as any in the
  cluster has no client that may be both its choice and served for a filter visited earlier.
- `ServedLocallyIff`, `PlainSubscriberCanMiss`: conversely, a client first chosen for a group has its plain
  subscriptions absorbed by that choice, and gets nothing if another node's member wins.
- `GroupRecordedIff`: a shared subscription served at store time is remembered only if its client is not
  named again later in the recipient list.
- `StepSimilarIff`, `SimilarThroughoutIff`, `ConvergeIff`: the handshake lock reads the local clock, so
  replicas can record different connections.  They stay equal (timestamps aside) exactly if they agree
  on every lock attempt, and do so for every log exactly if their clocks agree on which stretches of it
  exceed the timeout.
- `LateSubscriptions`: a late subscription of a superseded connection replaces the entry of the newer one.
- `LateRecords`, `LateConnectionReturns`: so does its late connection, unless it is older by the creation
  time its node gave it.  The handshake lock does not compare these times, so nodes whose clocks differ
  can get there.
- `StuckIff`, `StuckForever`, `NeverStuckIff`: the delivery timer holds the lock of the in-flight window
  while it reforwards a message, and filing a message that only lacks its completion takes that lock
  again.  The session's loop then waits for itself.  With a retry interval and a window this can always
  happen.
- `NeverStrandedIff`: with a token channel that refuses when full, capacity 0 or 1 can strand a message.
  The code sends each token through a fresh clone of the sender, and the channel of the futures library
  documents a slot for each sender, so it is not shown that the code meets this case;
  `UnrefusedNeverStranded` covers a channel that never refuses.
- `BoundIsTight`, `CreditMeansIdIff`: with 65534 identifiers in use the packet identifier search can fail
  although one is free, and a run of the largest in-flight limit, 65535, gets there with credit left.
- `OverwritesIff`, `OverwriteExample`: a redelivery can replace a message in flight; a first delivery
  never does.
- `WillLostIff`, `CleanStartKickLosesWill`: a delayed will is dropped when a clean-start connection kicks
  the session.  `OfflineRestart`: after a broker restart an earlier DISCONNECT no longer holds the will back.

## Model

| member | source | states |
|---|---|---|
| Topics.LevelsMatchStep | rmqtt/src/broker/retain.rs:101-170 | the positional matching rule unfolds level by level, which is the form both tries walk |
| RetainTree.InsertRefinesUpdate | rmqtt/src/broker/retain.rs:24-37 | insertion into the tree is update of the flat map |
| RetainTree.RemoveRefinesDelete | rmqtt/src/broker/retain.rs:40-60 | removal, with pruning, is deletion from the flat map |
| RetainTree.InsertKeepsPruned | rmqtt/src/broker/retain.rs:31-37 | after an insertion every node below the root carries a value or leads to one |
| RetainTree.RemoveKeepsPruned | rmqtt/src/broker/retain.rs:45-60 | removal leaves no dead branch behind |
| RetainTree.PrunedNamesAreWildFree | rmqtt/src/broker/retain.rs:40-60 | in a pruned tree of names no level of any node is a wildcard, so the walk's literal lookup never meets one |
| RetainMatch.RootListsMatches | rmqtt/src/broker/retain.rs:94-98 | what the walk lists from the root is the matching part of the flat map, each entry once |
| RetainIndex.WalkMatches | rmqtt/src/broker/retain.rs:101-126 | the walk of a node lists exactly what the rest of the filter selects below it, each once; terminates on the tree though '#' does not shrink the filter |
| RetainIndex.WalkChildren | rmqtt/src/broker/retain.rs:127-145 | the '+' loop, in any order of the children, skipping '$' levels at the root |
| RetainIndex.WalkSubtree | rmqtt/src/broker/retain.rs:146-168 | the '#' loop, in any order of the children, including each child's own value |
| RetainIndex.RetainNode | rmqtt/src/broker/retain.rs:74-91 | only rejected values below the node disappear, the count is exactly how many, and below the limit none that is rejected remains |
| RetainIndex.ValuesSize | rmqtt/src/broker/retain.rs:193-200 | the recursive size is the number of stored topics |
| RetainIndex.Index.Insert | rmqtt/src/broker/retain.rs:24-37 | the stored map gains exactly one entry and stays pruned |
| RetainIndex.Index.Remove | rmqtt/src/broker/retain.rs:40-60 | the stored map loses exactly that topic and its value is returned |
| RetainIndex.Index.Retain | rmqtt/src/broker/retain.rs:64-91 | filters the map, returns exactly the drop in size, and is complete when the limit is not met |
| RetainIndex.Index.Matches | rmqtt/src/broker/retain.rs:94-98 | lists each stored topic that the filter matches under MQTT 5.0 exactly once, with its value, and nothing else |
| RetainStorage.Storage.SetWithTimeout | rmqtt/src/broker/default.rs:1171-1189 | replaces or clears the retained message and keeps the counter equal to the number stored |
| RetainStorage.Storage.RemoveExpired | rmqtt/src/broker/default.rs:1158-1168 | removes exactly the expired messages and keeps the counter exact |
| RetainStorage.Storage.GetMessages | rmqtt/src/broker/default.rs:1192-1209 | a subscription is sent each live retained message its filter matches, once |
| StoredMessages.KeyInjective | rmqtt-plugins/rmqtt-message-storage/src/ram.rs:283-284 | index keys (topic and decimal id) determine topic and id |
| StoredMessages.LookupSelects | rmqtt-plugins/rmqtt-message-storage/src/ram.rs:326-340 | the rewritten filter selects exactly the matching messages plus the described extras |
| StoredMessages.LookupExactIff | rmqtt-plugins/rmqtt-message-storage/src/ram.rs:326-340 | for which filters the lookup is exact, both ways |
| StoredMessages.LookupOverreachExample | rmqtt-plugins/rmqtt-message-storage/src/ram.rs:327-329 | a concrete filter and topic that do not match but are fetched |
| StoredMessages.SetConsistent | rmqtt-plugins/rmqtt-message-storage/src/ram.rs:275-316 | storing keeps message map, index, heap, records and byte counter in step |
| StoredMessages.WithoutTopConsistent | rmqtt-plugins/rmqtt-message-storage/src/ram.rs:196-204 | removing the earliest message keeps them in step |
| StoredMessages.CleanedIs | rmqtt-plugins/rmqtt-message-storage/src/ram.rs:159-206 | a cleanup removes exactly the messages of a prefix of the heap from every structure |
| StoredMessages.CleanupTakesPrefix | rmqtt-plugins/rmqtt-message-storage/src/ram.rs:159-206 | removal in expiry order, at most `max_limit + 1`; only expired messages unless a limit is exceeded; none expired left below that bound |
| StoredReplay.StateAfter | rmqtt-plugins/rmqtt-message-storage/src/ram.rs:130-140 | in every reachable state the structures hold the same ids and the byte counter is the sum of sizes |
| StoredReplay.AtMostOncePerClient | rmqtt-plugins/rmqtt-message-storage/src/ram.rs:342-381 | over any run a client is handed a stored message at most once |
| StoredReplay.AtMostOncePerGroup | rmqtt-plugins/rmqtt-message-storage/src/ram.rs:349-357 | over any run a shared subscription is handed it at most once by fetches, whichever members ask |
| StoredReplay.NeverToRecordedRecipient | rmqtt-plugins/rmqtt-message-storage/src/ram.rs:263-272 | a client recorded at store time is never handed the message |
| StoredReplay.GroupRecordedIff | rmqtt-plugins/rmqtt-message-storage/src/ram.rs:263-272 | when a shared subscription served at store time is closed for fetches, both ways |
| StoredReplay.ReturnedIsLive | rmqtt-plugins/rmqtt-message-storage/src/ram.rs:366-375 | nothing is handed out after expiry or beyond what the lookup reaches |
| StoredReplay.ReturnedIff | rmqtt-plugins/rmqtt-message-storage/src/ram.rs:342-381 | a fetch hands out a stored message exactly if the lookup reaches its topic, it has not expired, the client was neither a recipient when it was stored nor handed it since, and for a shared subscription the same holds of its filter and group |
| StoredReplay.ReturnedWasStored | rmqtt-plugins/rmqtt-message-storage/src/ram.rs:342-381 | and hands out nothing else |
| StoredReplay.StoredIff | rmqtt-plugins/rmqtt-message-storage/src/ram.rs:275-317 | over any run an id is stored exactly if a message was stored under it and no cleanup reached it since, and the content is that message's |
| MessageStore.RamMessageManager.Set | rmqtt-plugins/rmqtt-message-storage/src/ram.rs:275-316 | takes the storing step, or fails and changes nothing on an unparsable topic or an id in use |
| MessageStore.StoredSizeIs | rmqtt-plugins/rmqtt-message-storage/src/ram.rs:275-316 | what a message adds to the byte counter, from its body, topic and id |
| MessageStore.RamMessageManager.Get | rmqtt-plugins/rmqtt-message-storage/src/ram.rs:319-383 | takes the fetching step and lists each fetched message once, in any index order |
| MessageStore.RamMessageManager.TopicValues | rmqtt-plugins/rmqtt-message-storage/src/lib.rs:126-131 | the size reported from the index is the number of stored messages |
| MessageStore.RamMessageManager.PopExpired | rmqtt-plugins/rmqtt-message-storage/src/ram.rs:163-194 | pops exactly the computed prefix, measuring the limits before any removal |
| MessageStore.RamMessageManager.RemoveExpired | rmqtt-plugins/rmqtt-message-storage/src/ram.rs:159-206 | takes the cleanup step: the popped messages leave every structure |
| TopicIndex.NextCorrect | rmqtt/src/broker/topic.rs:293-387 | each call of the lazy iterator yields the next of what an eager walk has left, and ends only when nothing is |
| TopicIndex.PreparedRemaining | rmqtt/src/broker/topic.rs:308-354 | expanding a node changes nothing about what is left |
| TopicIndex.EagerLists | rmqtt/src/broker/topic.rs:308-354 | the walk of a tree of legal filters lists those that match the topic, each once |
| TopicIndex.TopicTree.Insert | rmqtt/src/broker/topic.rs:47-60 | the indexed set of filters gains the filter |
| TopicIndex.TopicTree.Remove | rmqtt/src/broker/topic.rs:63-83 | the indexed set of filters loses the filter |
| TopicIndex.TopicTree.Matched | rmqtt/src/broker/topic.rs:269-305 | draining the iterator yields each indexed filter matching the topic exactly once |
| RoutingTable.AddedInOrder | rmqtt/src/broker/default.rs:939-958 | a subscription keeps index, relations and both counters in agreement |
| RoutingTable.RemovedInOrder | rmqtt/src/broker/default.rs:961-1001 | so does an unsubscription, including the last of a filter |
| ClusterLog.AlwaysOk | rmqtt-plugins/rmqtt-cluster-raft/src/router.rs:214-317 | after any log the table is in order and nobody is online and handshaking at once |
| ClusterLog.TableIgnoresClock | rmqtt-plugins/rmqtt-cluster-raft/src/router.rs:300-307 | adding and removing read no clock, so equal tables stay equal |
| ClusterLog.StepSimilarIff | rmqtt-plugins/rmqtt-cluster-raft/src/router.rs:218-234 | one entry keeps client states equal but for timestamps exactly if the lock verdicts agree or the attempt repeats the recorded one |
| ClusterLog.SimilarThroughoutIff | rmqtt-plugins/rmqtt-cluster-raft/src/router.rs:214-317 | the same over every log |
| ClusterLog.ConvergeIff | rmqtt-plugins/rmqtt-cluster-raft/src/router.rs:42-51 | replicas end every log with the same client states, timestamps aside, exactly if their clocks agree for every two places in it on whether the timeout passed in between |
| ClusterLog.LockHeld | rmqtt-plugins/rmqtt-cluster-raft/src/router.rs:218-299 | a granted lock stays pending until a release or a later grant that waited out the timeout |
| ClusterLog.NoSecondGrant | rmqtt-plugins/rmqtt-cluster-raft/src/router.rs:218-248 | on a monotone clock two grants for a client without a release are a timeout apart |
| ClusterLog.NextAttemptIff | rmqtt-plugins/rmqtt-cluster-raft/src/router.rs:226-229 | on any clock the next attempt succeeds exactly when the timeout has passed |
| ClusterLog.LateRecords | rmqtt-plugins/rmqtt-cluster-raft/src/router.rs:249-299 | what a connection no longer on record still says changes who is connected exactly if it connects again and is not older by creation time |
| ClusterLog.LateConnectionReturns | rmqtt-plugins/rmqtt-cluster-raft/src/router.rs:218-271 | a lock granted to a connection made by a node whose clock is behind, and the late message that undoes it |
| ClusterLog.LateSubscriptions | rmqtt-plugins/rmqtt-cluster-raft/src/router.rs:300-307 | a subscription not the old connection's own survives exactly if it is another client's or the old connection does not subscribe to that filter again |
| ClusterLog.OnlineIff | rmqtt-plugins/rmqtt-cluster-raft/src/router.rs:249-299 | after any log a client is online, under a given connection, exactly if that connection was accepted and no disconnect or termination of it, newer connection or granted lock followed |
| ClusterLog.HandshakingIff | rmqtt-plugins/rmqtt-cluster-raft/src/router.rs:218-299 | a handshake is pending, for its connection and since its time, exactly if a lock was granted and no grant or release followed |
| ClusterLog.SubscribedIff | rmqtt-plugins/rmqtt-cluster-raft/src/router.rs:300-307 | a client is subscribed, with given connection and options, exactly if it subscribed so and neither resubscribed nor unsubscribed as that connection since |
| ClusterLog.RecordedIff | rmqtt-plugins/rmqtt-cluster-raft/src/router.rs:218-299 | the connection on record is the last one granted the lock or accepted, unless its session was terminated since |
| ClusterLog.Replies | rmqtt-plugins/rmqtt-cluster-raft/src/router.rs:218-317 | a granted lock names the connection on record before it or none, a lookup names that connection's node, and a connection is refused exactly if it is older than another on record |
| ClusterLog.AttemptRefusedIff | rmqtt-plugins/rmqtt-cluster-raft/src/router.rs:218-248 | a lock attempt is refused exactly if an earlier grant is pending and the timeout has not passed since |
| ClusterLog.HighWater | rmqtt/src/broker/stats.rs:57-60 | over any log each counter's mark is the highest count it has had |
| ClusterRouter.DefaultRouter.Add | rmqtt/src/broker/default.rs:939-958 | performs the subscription on the table; a malformed filter changes nothing |
| ClusterRouter.DefaultRouter.Remove | rmqtt/src/broker/default.rs:961-1001 | performs the removal exactly if the entry belongs to this connection |
| ClusterRouter.Cluster.Apply | rmqtt-plugins/rmqtt-cluster-raft/src/router.rs:214-317 | performs the log entry and gives its reply; what they come to over a log is stated under ClusterLog |
| ClusterRouter.Cluster.TakeSnapshot | rmqtt-plugins/rmqtt-cluster-raft/src/router.rs:335-362 | lists the whole state, maps in any order |
| ClusterRouter.Cluster.Restore | rmqtt-plugins/rmqtt-cluster-raft/src/router.rs:364-390 | gives back the captured state whatever was there before |
| ClusterRouter.FromPairsEnumerated | rmqtt-plugins/rmqtt-cluster-raft/src/router.rs:378-387 | refilling a map from any listing of it gives the map |
| ClusterRouter.SnapshotThenRest | rmqtt-plugins/rmqtt-cluster-raft/src/router.rs:335-390 | restoring a snapshot of any prefix and applying the rest equals applying the whole log |
| RouterMatches.RouteMatches | rmqtt/src/broker/default.rs:696-766 | for any topic the relations gathered are exactly those of matching filters: each ungrouped subscriber once per filter, one member per filter and group; exactly those of MQTT 3 and each MQTT 5 client's first on a node survive collection, and an ungrouped subscriber is served unless it may first be chosen for a group |
| SharedChoice.Choice | rmqtt/src/broker/mod.rs:226-266 | for any random draws a member is chosen unless there is none, and it is online if any member is |
| SharedChoice.Partition | rmqtt/src/broker/default.rs:713-739 | splits a filter's subscribers into groups and the rest, each eligible one once, honouring No Local |
| SharedChoice.MatchFilter | rmqtt/src/broker/default.rs:699-756 | one choice per group with a subscriber that hears the publisher, of a connected client whenever one of them is, flagged with whether it is; every other such subscriber once; each with its recorded node and options |
| SharedNode.CollectorKeepsAllIff | rmqtt/src/broker/types.rs:421-450 | collecting loses no relation exactly if no MQTT 5 client has two different ones on a node |
| SharedCluster.ChoiceCanBeLost | rmqtt/src/broker/types.rs:433-449 | subscriptions of one client, plain and shared, for which a publication can leave the group without a message |
| SharedCluster.PlainSubscriberCanMiss | rmqtt-plugins/rmqtt-cluster-broadcast/src/shared.rs:376-393 | subscriptions on two nodes for which a client with a matching plain subscription may get nothing |
| SharedNode.ChoiceKeptIff | rmqtt/src/broker/types.rs:423-449 | a node hands on its choice for a group under all random draws exactly if no MQTT 5 client that may be that choice may also be served, on the same node, for a filter visited earlier |
| SharedNode.SurvivesIff | rmqtt/src/broker/types.rs:423-449 | a relation survives collection exactly if it is of MQTT 3 or the first of its client on the node |
| SharedNode.ServedLocallyIff | rmqtt/src/broker/types.rs:423-449 | a client subscribed outside groups is served on its node under all random draws exactly if it has such a subscription of MQTT 3 or may not be chosen, as MQTT 5, for a filter visited before all of them |
| SharedNode.MatchNode | rmqtt/src/broker/default.rs:696-766 | gathers every filter's contribution and collects it per node, an MQTT 5 client's with all its subscription identifiers in order |
| SharedNode.SharedReply | rmqtt/src/broker/default.rs:487-503 | a node replies with exactly its relations that belong to shared subscriptions |
| SharedCluster.ChooseAcross | rmqtt-plugins/rmqtt-cluster-broadcast/src/shared.rs:309-393 | one choice per filter and group among all replies, online if any reply is; choices and deliveries correspond one to one, each under the node it names with its own options |
| SharedCluster.DeliveredWasPicked | rmqtt-plugins/rmqtt-cluster-broadcast/src/shared.rs:376-393 | every delivery is one choice's, at the node it names, and no other choice's |
| SharedCluster.ServedIff | rmqtt-plugins/rmqtt-cluster-broadcast/src/shared.rs:336-393 | one shared subscription gets exactly one eligible member of the cluster, online if any is, under all draws on all nodes, exactly if it has no member or some node with a best member cannot lose its choice |
| SharedCluster.OneMemberEachIff | rmqtt-plugins/rmqtt-cluster-broadcast/src/shared.rs:274-393 | the same for all shared subscriptions at once |
| SharedCluster.ForwardShared | rmqtt-plugins/rmqtt-cluster-broadcast/src/shared.rs:274-411 | end to end: the result is one of those draws; every shared subscription satisfying that condition is served right, by a connected client whenever one of its subscribers is connected to any node; and deliveries go where the choices say |
| DeliverQueue.Fifo | rmqtt/src/broker/queue.rs:192-213 | over any run what was queued and entered is what left, in that order, followed by what is there |
| DeliverQueue.SendConserves | rmqtt/src/broker/queue.rs:75-96 | a send loses nothing: queued, returned, or displacing the oldest, which is returned |
| DeliverQueue.StaysBounded | rmqtt/src/broker/queue.rs:192-201 | the length never exceeds the capacity by more than one |
| DeliverQueue.NeverStrandedIff | rmqtt/src/broker/queue.rs:142-152 | if a full token channel may refuse, tokens cover the queued messages in every run from every seeded queue exactly if the capacity is at least 2 |
| DeliverQueue.UnrefusedNeverStranded | rmqtt/src/broker/queue.rs:142-152 | if it never refuses they do at every capacity |
| DeliverQueue.AwakeDrains | rmqtt/src/broker/queue.rs:111-117 | such a queue is delivered completely and in order by polling alone |
| DeliverQueue.Channel.constructor | rmqtt/src/broker/queue.rs:142-152 | seeds one token per queued message as far as the channel takes them |
| DeliverQueue.Channel.SendMessage | rmqtt/src/broker/queue.rs:75-96 | queues the message up to the capacity, then displaces the oldest or refuses the message, and says which |
| DeliverQueue.Channel.PollNext | rmqtt/src/broker/queue.rs:111-117 | waits without a token, otherwise takes the head |
| InflightWindow.SearchFirst | rmqtt/src/broker/inflight.rs:246-257 | the search succeeds exactly if some nonzero identifier other than the one before the start is free, and returns the first in cyclic order |
| InflightWindow.IdAvailable | rmqtt/src/broker/inflight.rs:246-257 | with at most 65533 identifiers held it always succeeds |
| InflightWindow.BoundIsTight | rmqtt/src/broker/inflight.rs:246-257 | with 65534 held it can fail although one is free |
| InflightWindow.AlwaysOk | rmqtt/src/broker/session.rs:225-240 | over every run of the online loop the window fits its capacity and pushes minus pops is its length |
| InflightWindow.OverwritesIff | rmqtt/src/broker/session.rs:736-760 | when a delivery replaces a message in flight, both ways |
| InflightWindow.OverwriteExample | rmqtt/src/broker/session.rs:736-760 | a delivery and a redelivery of which the second replaces the first |
| InflightWindow.InFlightIff | rmqtt/src/broker/session.rs:714-823 | over any run an identifier is in flight exactly if a delivery was sent under it and no acknowledgement, time-out or redelivery followed; the message is the one delivered, awaits completion exactly if its receipt was confirmed, and is idle since the last confirmation or else its sending |
| InflightWindow.TimerTakesIff | rmqtt/src/broker/inflight.rs:44-52 | the timer takes a message at its front exactly if a positive interval has passed since its last confirmation or else its sending |
| InflightWindow.StuckIff | rmqtt/src/broker/session.rs:225-232 | the loop is stuck exactly if the timer has taken a live message lacking only its completion |
| InflightWindow.StuckForever | rmqtt/src/broker/session.rs:225-232 | from then on no event changes the window |
| InflightWindow.NeverStuckIff | rmqtt/src/broker/session.rs:809-816 | no run gets stuck exactly if there is no retry interval or no window |
| InflightWindow.CreditMeansIdIff | rmqtt/src/broker/session.rs:234-240 | a delivery with credit gets an identifier in every run exactly if the limit is below the largest a client can ask for |
| InflightWindow.Inflight.NextId | rmqtt/src/broker/inflight.rs:246-257 | the wrapping counter loop computes that search and leaves the counter after the result |
| InflightWindow.Inflight.TestCredit | rmqtt/src/broker/inflight.rs:241-243 | the subtraction cannot underflow |
| InflightWindow.Inflight.PushBack | rmqtt/src/broker/inflight.rs:190-204 | files the message and fires the callbacks, two when it replaces one |
| InflightWindow.Inflight.Remove | rmqtt/src/broker/inflight.rs:207-216 | takes one message out and counts it |
| InflightWindow.Inflight.PopFront | rmqtt/src/broker/inflight.rs:169-178 | takes some message out, none only if empty |
| InflightWindow.Inflight.PopFrontTimeout | rmqtt/src/broker/inflight.rs:146-187 | takes the front only if it has been idle for the interval |
| InflightWindow.Inflight.UpdateStatus | rmqtt/src/broker/inflight.rs:219-223 | sets the status and restarts the idle time |
| InflightWindow.Inflight.ToInflightMessages | rmqtt/src/broker/inflight.rs:260-267 | empties the window, listing every message once |
| InflightWindow.DeliverMessage | rmqtt/src/broker/session.rs:714-764 | the delivery step: files the message under its own or a free identifier with the status of its QoS, and fails exactly if a message to be sent finds no identifier or the send fails |
| InflightWindow.Reforward | rmqtt/src/broker/session.rs:767-823 | a message not yet received goes back as a duplicate; one lacking only its completion, if live and released again, is to be filed in the window again |
| InflightWindow.RetryTimedOut | rmqtt/src/broker/session.rs:225-232 | a round of the timer, reading the clock at every pop, takes each message once and only after its interval; it stops at a front that is not due, or gets stuck exactly at the first message to be filed again |
| SessionWill.RunOnline | rmqtt/src/broker/session.rs:117-261 | the flags the online loop leaves with |
| SessionWill.RunOffline | rmqtt/src/broker/session.rs:345-436 | a pending will is published by the first timer and not again |
| SessionWill.RunSession | rmqtt/src/broker/session.rs:263-339 | in every run the will goes out at most once, never after a DISCONNECT, exactly once when the session expires without one |
| SessionWill.WillPublishedIff | rmqtt/src/broker/session.rs:263-339 | for clients of either version, exactly when the will goes out, event by event |
| SessionWill.GoesOnIff | rmqtt/src/broker/session.rs:1234-1246 | exactly when a session goes on offline after its connection ends |
| SessionWill.OfflineRestart | rmqtt/src/broker/session.rs:439-499 | a restored session publishes its will at most once, regardless of an earlier DISCONNECT |
| SessionWill.WillLostIff | rmqtt/src/broker/session.rs:282-339 | which finished runs never publish the will, both ways |
| SessionWill.CleanStartKickLosesWill | rmqtt/src/broker/session.rs:311-314 | a clean-start kick loses a delayed will |
| Takeover.ToOfflineInfo | rmqtt/src/broker/session.rs:1394-1407 | subscriptions, queue and window are emptied into the lists, the queue in order |
| Takeover.SubscribeTo | rmqtt/src/broker/default.rs:246-270 | the session and the table take a subscription together, or neither does |
| Takeover.UnsubscribeFrom | rmqtt/src/broker/default.rs:273-288 | and drop it together |
| Takeover.OwnsStepIff | rmqtt/src/broker/default.rs:246-288 | a step keeps them in agreement exactly if no other connection of the client subscribes to one of the session's filters |
| Takeover.OwnsAlways | rmqtt/src/broker/default.rs:246-288 | so from an empty session they agree throughout every run without such a step |
| Takeover.ClearSubscriptions | rmqtt/src/broker/default.rs:90-111 | in any order, takes the session's subscriptions out of the table where they are still its own, and nothing else |
| Takeover.MoveSubscriptions | rmqtt/src/broker/session.rs:1191-1209 | in any order, puts the subscriptions in the new connection's name, changing nothing else, and sends exactly the stored messages owed to one of them, each once |
| Takeover.MovedHandsOver | rmqtt/src/broker/session.rs:1191-1215 | the new connection then owns exactly what the old one did, and the old one nothing |
| Takeover.ClearedLeavesNone | rmqtt/src/broker/default.rs:90-111 | clearing leaves the old connection nothing and everybody else everything |
| Takeover.TakeoverHolds | rmqtt/src/broker/session.rs:1191-1215 | a subscription taken over stays exactly if the old connection does not subscribe to its filter again, and the new connection stays on record exactly if the old one does not connect again or is older |
| Takeover.TransferSessionState | rmqtt/src/broker/session.rs:1177-1231 | moves the subscriptions and replays what they are owed unless they are to be cleared, and forwards exactly the owed messages, less the released ones, each list reversed; or drops them all on a closed channel |
| Takeover.Kick | rmqtt/src/broker/default.rs:157-217 | only a lost reply stops it; clears on request, and hands everything over unless the start is clean |
| Takeover.TakeOver | rmqtt/src/broker/v5.rs:153-271 | end to end: after a clean start the old subscriptions are gone and nothing is sent; otherwise they move, the stored messages they are owed are sent once each, and the new connection receives the old messages as a multiset, those in flight marked as duplicates |
| Takeover.RedeliveredIff | rmqtt/src/broker/session.rs:1218-1224 | a message in flight is redelivered exactly if it was not already released |
| ClientLock.MutualExclusion | rmqtt/src/broker/default.rs:35-49 | under every interleaving at most one live entry holds a client's lock, and the map holds exactly the clients with one |
| ClientLock.AttemptSucceedsIff | rmqtt/src/broker/default.rs:118-128 | an attempt succeeds exactly if no live entry holds the lock |
| ClientLock.RemovesOwnMutex | rmqtt/src/broker/default.rs:41-49 | the destructor removes its own mutex from the map and no other |

## Left out

- Nested tree nodes are values owned by their parents, reassigned through the root field, not objects updated in place: the code's ownership rules out sharing, and no property here depends on node identity.
- `nodes_size`, `list` and other diagnostics of the tries: easy members.
- The encoded variant of the message map: it differs only by a serialisation assumed to be lossless.
- Interleavings inside one operation of the router, the store or the session: each is one step.  Of the session's locks only the timer's waiting for itself is considered.
- Rate limiting of the delivery queue, closing of its token channel, keep-alive: when timers fire is left open.
- Whether a full token channel refuses is left open; both outcomes are covered.
- InflightWindow.Inflight.PopFrontTimeout: which message is at the front is left open, since the ordered map is an external library.
- Takeover.Kick: is given the old session; without one the code does nothing.  The session's creation time and hooks are not modelled.
- Takeover.ToOfflineInfo: is stated for a session whose loop is not stuck; the code would wait for the window's lock.
- Takeover.MoveSubscriptions: the stored messages come from one node's store, and the lowering of their quality of service is not modelled.
- Raft consensus and the storage back ends other than RAM: the log is taken as given.
- Hooks, access control, HTTP interfaces, bridges, metrics, configuration: pass-through or rule lists.
