# A model of the publish/subscribe broker

The repository is an in-memory topic broker with WebSocket clients and a Redis list per topic for replay. This project
models its core (the sharded topic tables, topics, subscribers, the replay log and the per-connection request handler)
and proves what clients and operators may rely on. Two views of the same code are used.

**Whole operations on objects.** `Subscriber`, `Topic`, `Shard`, `Broker` and `ConnectionHandler` are classes with the
source's fields and loops (`Subscriber.dfy`, `Topic.dfy`, `Shard.dfy`, `Broker.dfy`, `Handler.dfy`, and `RedisStorage` in
`ReplayLog.dfy`). Each method is proved to compute a function on one flat state, a map from names to topics, a map from
clients to their queues, and the stored lists (`FlatBroker.dfy`), so the 32 shards chosen by FNV-1a (`ShardHash.dfy`)
cannot be told from one table. `Runs.dfy` then follows runs of whole requests, deletions, write-loop rounds and
disconnections; `Answers.dfy` says of each what it does to every client and topic, `Provenance.dfy` where messages come
from, `ClientView.dfy` what one client gets, `Overflow.dfy` and `Recreation.dfy` what an overflow and
a deletion leave behind, and `Mailbox.dfy` one subscriber's queue.

**Single steps, interleaved.** The guarantees that depend on timing are proved of state machines in which any number of
goroutines take one lock-protected piece or one call at a time, referring to topic objects that may have been
deleted and replaced under the same name meanwhile:

- `Delivery.dfy`, `DeliveryProofs.dfy`, `Coverage.dfy`, `FanOutRuns.dfy`, `FanOutOrder.dfy`, `StaleGap.dfy`,
  `FailedSaves.dfy`, `LateFanOut.dfy`, `DeliveryAnswers.dfy`: publishing (find, push, trim,
  count, snapshot, each send) against subscribing (find, add, fetch, each replayed message);
- `Registration.dfy`, `Agreement.dfy`, `Knowledge.dfy`: who is listed where, under subscribe, unsubscribe, cleanup, create and delete;
- `Locks.dfy`, `LockPaths.dfy`, `LockGuards.dfy`: every lock the paths take, with writers that keep new readers out while they wait;
- `TopicCap.dfy`: creations that scan 32 shards before they insert;
- `CloseOnce.dfy`: one subscriber's close flag, lock and channel, a statement at a time;
- `ReplayVariable.dfy`: the replay loop's variable, shared by the frames it queues.

What a step machine starts from is the empty broker; a result about "every run" is about every sequence of steps, in
which a step that its goroutine cannot take now changes nothing.

Where the code does not do what one would expect, the model follows the code:

- A publisher that found a topic before its deletion stores its message under the name, but sends it to the old
  object's clients. So the no-gap guarantee (`Coverage.NoGap`) covers later pushes made through the subscriber's own
  topic object; `StaleGap.StalePublisherLeavesGap` is a run in which another push is missed, and
  `FanOutRuns.FanOutReachesTheSnapshot` says for every publish who hears of it: exactly the clients its object listed.
- A publish may report failure although its message was stored: when the trim fails after the push, or a reply is lost.
  Such a message is never counted and never fanned out, but it stays in the list, and a replay queues it for the next
  subscriber that asks (`FailedSaves.FailedSaveReachesASubscriber`). `FailedSaves.FetchHoldsIffListed` is the exact
  condition for a push to be in a replay, in which the outcome of its save plays no part. Only a push the store refused
  leaves no trace (`FailedSaves.RefusedPushLeavesNoTrace`).
- A client may be sent a message of a topic after it has left it: the publish took its snapshot before
  (`LateFanOut.LateFanOutHappens`). `LateFanOut.SilentIffNotAwaited`: a client that has left is offered nothing more of
  the topic until it asks again, if and only if no publish still waits to send to it. With whole requests as the steps
  no publish can (`ClientView.SilentWhileUnsubscribed`).
- A client's own topic set may hold a name under which no topic lists it, in two ways: an add on an object that was
  deleted (`Agreement.StaleAddLeavesName`), and an add on the object in the tables after a deletion has emptied it
  and before it takes the name out (`Agreement.AddToClearedLeavesName`). `Agreement.AddLastsIffTopicStays` is the
  exact condition under which the two stay in agreement in every continuation.
- `go.mod` declares Go 1.21, in which a `for` loop has one variable for all its rounds. The replay loop queues frames
  that point to it, so a frame shows the variable's value when the write loop encodes it. `ReplayVariable.dfy` says what
  is shown under every schedule: a replay as it was fetched if and only if its messages are all equal, so in practice if
  it has one message at most; of a longer one only the last message is sure to be shown
  (`ReplayVariable.OnlyLastRoundIsSure`). Where whole requests are the steps, the loop is over before any of its frames
  is written: a frame carries its replay and its round, and `ClientView.ReadsWhatIsShown` says that the client reads the
  last message of the replay each time. `Delivery.dfy` identifies a frame, queued or written, with the push it was sent
  for.
- `SendMessage` gives the close lock back before it enqueues, so a send can meet a closed channel
  (`CloseOnce.SendCanMeetClosedQueue`); `CloseOnce.SendPanicsIffClosedSinceCheck` says exactly when. The queue results
  of `Mailbox.dfy`, `Runs.dfy` and `Delivery.dfy` take a send as one step.
- The documentation says that slow-consumer protection removes the subscriber from the topic. The overflow itself only
  closes the subscriber: `Overflow.OverflowLeavesListed` reaches a state in which a client closed by it is still
  listed. A fan-out changes no list, and a client is off every topic if and only if its own set is empty
  (`Overflow.UnlistedIffNoTopics`), which its cleanup brings about.
- Deleting a topic leaves its stored list, so a topic created again under the name replays the old one's messages
  (`Recreation.RecreatedTopicReplaysOldMessages`, `Recreation.OldMessageIsReplayed`). A first replay is empty if and only
  if no push for the name is kept (`Recreation.ReplayEmptyIffNothingKept`).

## Model

| member | source | states |
|---|---|---|
| `Coverage.NoGap` | internal/ws/handler.go:113-132 | for any last_n >= 1, however add, fetch and replay interleave with publishers, deleters and expiry: a subscriber that stays on its object is offered every push from the min(n, 100)-th newest at its fetch on, by the end of its replay loop and of each later publish through that object; an entry is an identity, the push it was sent for, and not what it shows |
| `Coverage.NoGapWithOneObject` | internal/ws/handler.go:113-132 | while only one object ever had the name, every later push whose publish ended well is offered, whoever made it |
| `StaleGap.StalePublisherLeavesGap` | internal/broker/broker.go:106-120 | a run in which a publisher that still refers to the deleted object ends its publish well and the subscriber of the new object is never offered the message |
| `FanOutRuns.FanOutReachesTheSnapshot` | internal/broker/topic.go:83-98 | in every interleaving the clients a publish is sent to are exactly those its object listed at the snapshot: no other ever, each of them by its end |
| `FanOutOrder.FanOutReachesEachOnce` | internal/broker/topic.go:91-98 | once a publish has ended, each client of its snapshot was offered exactly one fan-out entry of it, and no other client any |
| `FanOutOrder.FanOutsInPushOrder` | internal/broker/topic.go:91-98 | in every interleaving the fan-out entries of one publisher's pushes to one name stand in push order in what each client is offered |
| `LateFanOut.SilentIffNotAwaited` | internal/broker/topic.go:83-98 | a client on no object of a name and not on its way through a subscribe is offered nothing of it, in every continuation in which it does not ask to subscribe: if and only if no publish of the name still waits to send to it |
| `LateFanOut.LateFanOutHappens` | internal/broker/topic.go:83-98 | a run in which a client leaves between the snapshot and the send, and is then queued the message |
| `DeliveryAnswers.OneAnswerPerRequest` | internal/ws/handler.go:81-220 | in every interleaving a client has been offered as many answers as its handler has taken up requests, less the one it may be at |
| `Coverage.StoredBeforeOffered` | internal/broker/broker.go:112-118 | every message offered, accepted, queued, in flight or on a wire was pushed to its topic's list before, and a fan-out's save had succeeded |
| `Coverage.FailedSaveIsNotFannedOut` | internal/broker/broker.go:113-116 | a push whose save reported failure stays failed, is never counted and never fans out, in any continuation; that a replay may still queue it is in the next rows |
| `FailedSaves.FailedSaveReachesASubscriber` | internal/storage/redis.go:63-71 | a run in which the push succeeds, the trim is refused, the publisher is answered with the failure, and the next subscriber's replay queues the message |
| `FailedSaves.FailedSaveIsReplayed` | internal/ws/handler.go:119-132 | every failed push the list has within reach of a fetch is offered to that subscriber by the end of its replay loop, in every continuation, and is still failed |
| `FailedSaves.FetchHoldsIffListed` | internal/storage/redis.go:80-99 | for any n >= 1 a fetch holds push k if and only if k is among the newest min(n, list length) pushes, however its save ended |
| `Coverage.CountIsCountedPushes` | internal/broker/topic.go:73-74 | a topic object's message count is the number of pushes through it that passed their save and their counting step, at most the pushes of its name |
| `Coverage.ListKeepsItsSize` | internal/storage/redis.go:63-71 | without failed saves a list is at most 100 plus the publishers between push and trim; with none, a fetch is the last min(n, 100, pushes) |
| `Coverage.FetchIsEndOfHistory` | internal/storage/redis.go:80-99 | in every interleaving, with late and failed trims, a fetch of 1 to 100 is the end of the push history, oldest first |
| `Coverage.RunInv` | internal/broker/broker.go:106-120 | the joint invariant of records, lists, counts, offers and subscriptions in force holds in every interleaving |
| `Agreement.ListedClientKnows` | internal/broker/topic.go:34-65 | whenever a live topic lists a client, the client's set has the name, or its handler is about to add it, or a deleter holds the topic to empty it |
| `Knowledge.NameIsBacked` | internal/broker/topic.go:54-65 | in every interleaving a name is in a client's set only if an object of that name, live or deleted, lists the client, or its handler is between taking it off one and taking the name out |
| `Knowledge.LeftIsForgotten` | internal/ws/handler.go:137-153 | once the handler is back and no object of the name lists the client, the name is not in its set |
| `Knowledge.SubscribeAlone` | internal/broker/topic.go:34-52 | a subscribe with nothing in between, to a topic with room, ends with the client listed and holding the name, and nothing else changed |
| `Knowledge.UnsubscribeAlone` | internal/broker/topic.go:54-65 | an unsubscribe with nothing in between ends with the client off the topic and the name out of its set, and nothing else changed |
| `Knowledge.DeletionEnds` | internal/broker/shard.go:43-56 | a deletion ends with the name out of the tables, the shard free, and the object left to those who still refer to it |
| `Knowledge.LimitHolds` | internal/broker/topic.go:41-43 | however the adds interleave no object lists more than 50000 clients |
| `Agreement.CleanedUpIsUnlisted` | internal/ws/handler.go:222-230 | once a client's cleanup is over no live topic lists it, but one a deleter is emptying, through deletions, re-creations and references to deleted objects |
| `Agreement.OneDeleterPerTopic` | internal/broker/shard.go:43-56 | two deletions under one name never overlap: the shard lock is held across close and remove |
| `Agreement.StaleAddLeavesName` | internal/broker/topic.go:34-52 | the converse of the cross-index fails: an add on a deleted object leaves a name in the client's set that no topic answers to |
| `Agreement.AddToClearedLeavesName` | internal/broker/shard.go:43-56 | so does an add on the object in the tables, once a deletion has emptied it and before the name goes |
| `Agreement.AddLastsIffTopicStays` | internal/broker/topic.go:34-52 | in every continuation, until the client's handler takes another step, the client's set has the name only if a topic under it lists the client: if and only if the object was the one in the tables and no deletion had emptied it already |
| `Agreement.AddListsIffPointerIsLive` | internal/broker/topic.go:34-52 | at the moment an add with room ends, the live topic of that name lists the client if and only if the object it was added to was still the one in the tables |
| `Locks.NoDeadlock` | internal/broker/shard.go:102-131 | with every goroutine rising through the lock ranks, some goroutine can move while any is unfinished, although waiting writers block new readers |
| `Locks.EveryoneCanFinish` | internal/broker/shard.go:102-131 | from every reachable state some schedule brings all goroutines to their ends with no lock held, and every step of any of them is progress |
| `Locks.RunOk` | internal/broker/topic.go:34-46 | every run keeps each goroutine on its discipline, and a lock held for writing is held by one goroutine alone |
| `Locks.WriterKeepsOthersOut` | internal/broker/shard.go:102-131 | a writer that waits for a read-write lock, or holds it, keeps every new reader and writer out |
| `LockPaths.RisingIsDisciplined` | internal/broker/shard.go:43-51 | nested and consecutive sections whose locks rise in rank take and give back locks in a disciplined order |
| `LockPaths.PathIsDisciplined` | internal/broker/topic.go:110-126 | each path of the broker and the handlers (create, delete, list, count, subscribe, unsubscribe, publish, answer, cleanup, failed write) rises shard, topic, subscriber |
| `LockPaths.BrokerNeverDeadlocks` | internal/broker/shard.go:43-51 | with any number of goroutines on those paths nothing deadlocks, and all can finish |
| `LockGuards.DeletionTakes` | internal/broker/shard.go:43-56 | a deletion does everything under its shard's lock, and tells each subscriber and changes its set under the topic's lock too, both held for writing |
| `LockGuards.PublishTakes` | internal/broker/topic.go:83-98 | a publish reads its topic's list under the lock and makes every send under the close lock alone |
| `LockGuards.SubscribeTakes` | internal/broker/topic.go:34-46 | a subscribe changes the listing under the topic's lock and the client's own set only inside it |
| `LockGuards.CleanupTakes` | internal/ws/handler.go:222-230 | a cleanup reads the client's set, changes each listing under its topic's lock, and then takes the close lock |
| `LockGuards.CreationTakes` | internal/broker/broker.go:57-72 | a creation reads all 32 tables under their locks and then takes its own shard's for writing |
| `LockGuards.VisitsTake` | internal/broker/shard.go:102-131 | listing and counting read every table and every topic there, counting with the table's lock held |
| `TopicCap.CapHolds` | internal/broker/broker.go:57-72 | with at most n creations under way, each scanning shard by shard, topics never exceed the limit plus n - 1, deletions included; one at a time, never the limit |
| `TopicCap.RunNamesGiven` | internal/broker/broker.go:57-60 | no topic with the empty name ever comes to be |
| `TopicCap.DeletionMakesRoom` | internal/broker/broker.go:78-88 | a deletion takes out its one name, whatever creations are under way |
| `TopicCap.CapIsReached` | internal/broker/broker.go:57-72 | for every n and any distinct names, some run with n creations at once reaches exactly that bound |
| `CloseOnce.ClosedAtMostOnce` | internal/broker/subscriber.go:73-116 | however many goroutines close, the channel is closed at most once, after the connection, with one notice at most, and the flag is exact whenever the lock is free |
| `CloseOnce.FullQueueCloses` | internal/broker/subscriber.go:63-70 | a send that meets a full queue ends, whatever the others do, with the channel closed and the connection down |
| `CloseOnce.FullQueueAlone` | internal/broker/subscriber.go:73-100 | with nothing in between it writes exactly one notice, closes, and sets the flag |
| `CloseOnce.CloseAlone` | internal/broker/subscriber.go:102-116 | a close with nothing in between closes without a notice and leaves the queued frames |
| `CloseOnce.SendAlone` | internal/broker/subscriber.go:55-65 | a send to an open subscriber with room, with nothing in between, adds its frame and changes nothing else |
| `CloseOnce.ClosedRefusesAlone` | internal/broker/subscriber.go:57-60 | on a closed subscriber every call comes back and changes nothing |
| `CloseOnce.SendPanicsIffClosedSinceCheck` | internal/broker/subscriber.go:55-71 | a send past its check meets a closed channel if and only if a goroutine closed it between check and enqueue |
| `CloseOnce.SendCanMeetClosedQueue` | internal/broker/subscriber.go:55-71 | such a run exists |
| `CloseOnce.PanicNeedsOverlap` | internal/broker/subscriber.go:55-71 | with check, unlock and enqueue uninterrupted no send panics |
| `ReplayVariable.ShownIsNoOlder` | internal/ws/handler.go:121-130 | a replay frame is written with its own message or a newer one of that replay, never an older one |
| `ReplayVariable.OwnMessageIffNoLaterRound` | internal/ws/handler.go:121-130 | a replay frame shows its own message if and only if the next round has not begun when it is written |
| `ReplayVariable.ShowsLatestRound` | internal/ws/handler.go:121-130 | a frame written shows the message of the latest round begun, and once the loop is over always the last one |
| `ReplayVariable.FaithfulIffAllEqual` | internal/ws/handler.go:121-130 | a replay is shown as fetched in every run if and only if all its messages are equal |
| `ReplayVariable.RoundShownIffWrittenDuring` | internal/ws/handler.go:121-130 | in every run the message of a round is shown by some frame if and only if a frame of the replay was written after the round began and before the next did |
| `ReplayVariable.OnlyLastRoundIsSure` | internal/ws/handler.go:121-130 | a subscriber that stays open and has everything written is sure to be shown the last message of a replay under every schedule, and no other |
| `Mailbox.RunOk` | internal/broker/subscriber.go:36-116 | every run keeps: wire within accepted, accepted within offered, in-flight and queue the rest, closed means connection down |
| `Mailbox.WireIsPrefixOfOffered` | internal/broker/subscriber.go:43-71 | each frame on the wire is the offered item at its place, or the slow-consumer notice as the very last frame |
| `Mailbox.ClosedIsFinal` | internal/broker/subscriber.go:43-116 | after a close, in every continuation nothing is accepted or written, nothing reopens, and the write loop returns within one round |
| `Mailbox.OverflowIsFinal` | internal/broker/subscriber.go:63-100 | the first send to a full queue ends it for good: in every continuation nothing more is accepted, and the wire is what it was, ended by the notice if the connection was up |
| `Mailbox.LostLinkIsFinal` | internal/broker/subscriber.go:43-58 | once the connection is lost nothing more reaches the wire, in every continuation |
| `Mailbox.BurstOfOneHundred` | internal/broker/subscriber.go:63-70 | a new subscriber with a stalled loop accepts a burst of exactly 100 frames, and the next one closes it with the notice |
| `Mailbox.DrainDelivers` | internal/broker/subscriber.go:43-52 | left alone on a live connection the loop writes every accepted item and empties the queue |
| `Runs.DeliveredInOrder` | internal/broker/subscriber.go:43-71 | over runs of whole requests each client's wire and accepted frames begin as what it was offered, with no gap; a frame here is an identity, what it was sent for, and not what it shows |
| `ClientView.ReadsWhatIsShown` | internal/broker/subscriber.go:43-50 | what a client reads, frame by frame, is what the accepted frames show: their own content, but for each frame of a replay the replay's last message |
| `ClientView.ReplayReadsLast` | internal/ws/handler.go:121-130 | in every run of whole requests a client reads in each written frame of a replay the replay's last message |
| `ClientView.ReplayReadAsFetchedIffEqual` | internal/ws/handler.go:121-130 | in every run of whole requests a client all of whose frames of a replay were written has read it as it was fetched if and only if all its messages are equal |
| `Runs.AnsweredInOrder` | internal/ws/handler.go:81-220 | every request is answered exactly once: responses carry the request identifiers in request order, the accepted ones a prefix of them |
| `Answers.SubscribeLists` | internal/ws/handler.go:112-135 | an admitted subscribe lists the client and puts the name into its set, changes no other listing, and offers it alone replayed frames ended by the acknowledgement |
| `Answers.NoReplayUnlessAskedAndFetched` | internal/ws/handler.go:119-134 | with last_n <= 0, or a failed fetch, the client is offered the acknowledgement alone |
| `Answers.SubscribeRefusedWithReason` | internal/ws/handler.go:102-116 | any other subscribe changes nothing and is answered with its reason: no name, no such topic, or no room |
| `Answers.UnsubscribeUnlists` | internal/ws/handler.go:137-153 | an unsubscribe of an existing topic takes the client off it and the name out of its set, and is acknowledged |
| `Answers.AnsweredOnly` | internal/ws/handler.go:81-95 | a ping, an unknown request and an unsubscribe without a topic change nothing and get their own answer |
| `Answers.PublishTakesEffect` | internal/ws/handler.go:169-186 | a publish that reaches the store pushes the payload under the given identifier or the generated one; if both calls succeed the topic counts one more, each listed client is offered the message once and the publisher "published", otherwise the publisher alone the failure |
| `Answers.PublishedIffSaved` | internal/broker/broker.go:106-120 | a publisher is told "published" if and only if name and message were given, the topic exists and both storage calls succeeded |
| `Answers.PublishRefusedWithReason` | internal/ws/handler.go:159-167 | a publish without name, message or topic changes nothing and is answered with its reason |
| `Answers.CreationAnswers` | internal/broker/broker.go:57-72 | each error of a creation is returned exactly when it is the first to apply: no name, limit of 10000, name in use |
| `Answers.CreationAddsOne` | internal/broker/shard.go:27-41 | a creation adds its one empty topic exactly if it may, and otherwise changes nothing |
| `Answers.DeletionTellsTheListed` | internal/broker/topic.go:110-126 | a deletion takes the topic out and its name out of every set, and tells exactly the clients it listed |
| `Answers.CleanupLeavesAll` | internal/ws/handler.go:222-230 | a cleanup takes the client off every topic, empties its set, closes it and touches nobody else |
| `Provenance.OfferedWasPushed` | internal/broker/broker.go:112-118 | every message ever offered, by fan-out or replay, was pushed for its own topic, and no topic counts more messages than were pushed for its name |
| `Provenance.EveryMessageHasAnId` | internal/ws/handler.go:169-172 | with generated identifiers that are not empty no message is pushed, listed or offered without one |
| `Runs.SessionsRespected` | internal/ws/handler.go:97-152 | every message of a topic that a client is offered, or accepts while open, stands inside a subscription to it or in a replay that its acknowledgement closes; a closed client may have lost the end of that replay, not its beginning |
| `ClientView.SilentWhileUnsubscribed` | internal/ws/handler.go:137-153 | in runs of whole requests: from any moment a client does not hold a topic until it asks to subscribe to it, it is offered and accepts no message of that topic, in every continuation; for single steps see `LateFanOut` |
| `ClientView.SilentAfterEnd` | internal/broker/topic.go:110-126 | in runs of whole requests: the same from the "unsubscribed" acknowledgement and the "topic_deleted" info on |
| `Overflow.OverflowLeavesListed` | internal/broker/subscriber.go:63-71 | the overflow does not take a subscriber off its topic: under every name a state is reached in which a client closed by it is still listed |
| `Overflow.UnlistedIffNoTopics` | internal/ws/handler.go:222-230 | a client is off every topic if and only if its own set, which its cleanup goes through, is empty |
| `Recreation.RecreatedTopicReplaysOldMessages` | internal/broker/shard.go:43-56 | from every reachable state with a push kept for a topic: delete it, create it again, and a subscriber is replayed exactly the old topic's last messages |
| `Recreation.OldMessageIsReplayed` | internal/broker/shard.go:43-56 | such a run exists under every name |
| `Recreation.ReplayEmptyIffNothingKept` | internal/ws/handler.go:119-132 | a replay asked for is empty if and only if every push for the name was lost to expiry, or there was none |
| `Runs.SessionIsListing` | internal/broker/topic.go:110-126 | frames offered, own topic set and topic lists agree on which subscriptions are in force |
| `Runs.LeftIsUnlisted` | internal/ws/handler.go:222-230 | after a client's cleanup no topic lists it, in every continuation |
| `ClientView.LeftIsClosed` | internal/broker/subscriber.go:102-116 | after a client's cleanup its queue is closed and its connection down, in every continuation |
| `Runs.LimitsHold` | internal/broker/broker.go:57-72 | with whole creates and adds the topic and per-topic subscriber limits always hold |
| `Runs.DoubleCounting` | internal/broker/subscriber.go:140-144 | subscribers counted topic by topic and topics counted client by client give the same total |
| `Runs.SubscribeReplaysHistory` | internal/ws/handler.go:97-135 | a successful subscribe for the last n >= 1 offers a frame for each of the last min(n, kept) pushes if n <= 100, and for at least the last 100 kept otherwise, oldest first, and right after them its acknowledgement; what the frames show is in `ClientView` |
| `ReplayLog.ListRunMirrors` | internal/storage/redis.go:55-78 | under pushes, trims and expiries in any order the list is the newest-first image of the history's end, and short |
| `ReplayLog.SettledFetch` | internal/storage/redis.go:80-99 | with no push untrimmed a fetch of any positive size is exactly the last min(n, 100, pushes) |
| `ReplayLog.HundredStay` | internal/storage/redis.go:63-71 | however late and often the trims come, the newest hundred pushes since an expiry stay fetchable |
| `ReplayLog.FetchIsLastOfHistory` | internal/storage/redis.go:80-99 | range and reversal together return the end of the history, oldest first |
| `ReplayLog.RangesFromTheTail` | internal/storage/redis.go:68-84 | ranges count both ends, from the tail for negative indices, and are empty out of range, as the LRANGE command reference defines them |
| `ReplayLog.RedisStorage.SaveMessage` | internal/storage/redis.go:55-78 | succeeds if and only if both calls do; a refused push leaves the list, any other puts the message first, and a success leaves at most 100 |
| `ReplayLog.RedisStorage.GetReplayMessages` | internal/storage/redis.go:80-99 | the newest min(n, length) entries, oldest first, exactly if the call succeeds, and changes nothing |
| `ShardHash.ShardIsFiveBitWalk` | internal/broker/broker.go:49-55 | FNV-1a modulo 32 is the five-bit recurrence s := ((s xor (b mod 32)) * 19) mod 32 from 5 |
| `ShardHash.KnownHashes` | internal/broker/broker.go:49-55 | the 32-bit hash of the empty string, "a" and "foobar" as the FNV draft lists them |
| `ShardHash.ShardsAreEven` | internal/broker/broker.go:49-55 | for every length k >= 1 each shard receives exactly 256^k / 32 of the names |
| `Subscribers.Subscriber.SendMessage` | internal/broker/subscriber.go:55-71 | offers one frame: queued, refused by a closed subscriber, or closing a full one; true exactly if accepted |
| `Subscribers.Subscriber.HandleSlowConsumer` | internal/broker/subscriber.go:73-100 | writes the notice if the connection is up, then closes connection and queue; nothing if closed |
| `Subscribers.Subscriber.Close` | internal/broker/subscriber.go:102-116 | closes connection and queue once |
| `Subscribers.Subscriber.WriteLoop` | internal/broker/subscriber.go:36-53 | writes queued frames in order until it blocks, or stops at a failed write or on a closed empty queue |
| `Subscribers.Subscriber.GetSubscribedTopics` | internal/broker/subscriber.go:146-155 | each topic of the set exactly once |
| `Topics.Topic.AddSubscriber` | internal/broker/topic.go:34-52 | lists the client and adds the name to its set; unchanged if listed already, refused if full |
| `Topics.Topic.RemoveSubscriber` | internal/broker/topic.go:54-65 | takes the client off and the name out of its set, if listed |
| `Topics.Topic.PublishMessage` | internal/broker/topic.go:73-104 | whatever the map's order, each listed subscriber is offered this message once, no other changes, and the slow consumers are those that could not take it |
| `Topics.Topic.CloseAllSubscribers` | internal/broker/topic.go:110-129 | each listed subscriber is told and loses the name; the list is empty |
| `Shards.Shard.CreateTopic` | internal/broker/shard.go:27-41 | adds a new empty topic, or refuses a name it has |
| `Shards.Shard.DeleteTopic` | internal/broker/shard.go:43-56 | closes the topic towards its subscribers and removes it, or reports it missing |
| `Shards.Shard.GetAllTopics` | internal/broker/shard.go:91-100 | each topic of the table exactly once |
| `Shards.Shard.GetShardStatistics` | internal/broker/shard.go:113-131 | topic, subscriber and message totals of the table, whatever the order of the loop |
| `Brokers.Broker.CreateTopic` | internal/broker/broker.go:57-76 | does and returns what the flat table would: empty name, limit, existing name, or a new topic |
| `Brokers.Broker.DeleteTopic` | internal/broker/broker.go:78-88 | does and returns what the flat table would, telling exactly the listed clients |
| `Brokers.Broker.PublishMessage` | internal/broker/broker.go:106-121 | does and returns what the flat table would: save first, count and fan out only if it succeeded |
| `Brokers.Broker.SubscribeToTopic` | internal/broker/broker.go:123-136 | does and returns what the flat table would |
| `Brokers.Broker.UnsubscribeFromTopic` | internal/broker/broker.go:138-148 | does and returns what the flat table would |
| `Brokers.Broker.GetTopic` | internal/broker/broker.go:90-99 | finds the flat table's topic of that name, or none |
| `Brokers.Broker.TopicExists` | internal/broker/broker.go:101-104 | true exactly for the names of the flat table |
| `Brokers.Broker.ListAllTopics` | internal/broker/broker.go:161-172 | every topic of the 32 tables exactly once, with its counts |
| `Brokers.Broker.GetTotalTopicCount` | internal/broker/broker.go:201-207 | the 32 table sizes add up to the flat table's |
| `Brokers.Broker.GetTotalSubscriberCount` | internal/broker/broker.go:209-215 | the number of pairs of topic and listed client |
| `Brokers.Broker.GetStatistics` | internal/broker/broker.go:174-187 | the same pairs, counted through the topic listing |
| `Brokers.Broker.GetShardStatistics` | internal/broker/broker.go:217-223 | line i tells of the names that hash to i; the subscriber counts add up to the same pairs |
| `Handlers.ConnectionHandler.HandleSubscribe` | internal/ws/handler.go:97-135 | the flat broker's subscribe request: its errors in order, listing, replay, then the acknowledgement |
| `Handlers.ConnectionHandler.HandleUnsubscribe` | internal/ws/handler.go:137-153 | the flat broker's unsubscribe request |
| `Handlers.ConnectionHandler.HandlePublish` | internal/ws/handler.go:155-187 | the flat broker's publish request, with a generated identifier if the client gave none |
| `Handlers.ConnectionHandler.HandleClientMessage` | internal/ws/handler.go:81-95 | each request type reaches its handler, any other is refused |
| `Handlers.ConnectionHandler.CleanupSubscriber` | internal/ws/handler.go:222-230 | the client leaves every topic of its set, in whatever order, and is closed |
| `Handlers.ConnectionHandler.HandleConnection` | internal/ws/handler.go:52-79 | requests are served in order until reading fails, then cleaned up after |

## Left out

- HTTP routes, JSON encoding, logging, CORS, shutdown, Docker and environment handling: plumbing over libraries.
- WebSocket deadlines and timestamps: the connection is a log of frames that may fail at any step; client and generated message identifiers are parameters, client identifiers distinct.
- Redis transport, metadata keys, counters and `GetStats`: the broker does not call them. A stored entry is the message itself, so the skipping of entries that fail to decode is not modelled.
- The seven-day expiry is a step that may come at any moment; that each save renews it is not modelled, nor are retries of a Redis command inside the client library.
- The client SDKs and the web page.
- Integer widths: the message count and the totals are unbounded, where the source has 64-bit counters.
- `String` methods, `GetHealthStatus`, `IsClosed`, `GetSubscribersList` beyond their listing, and the random-string helper: easy members.
- Mailbox.RunOk: a send is one step here; what the split between its check and its enqueue allows is in `CloseOnce`. The slow-consumer notice is written to the connection by the sender while the write loop may be writing too; the two are ordered here, as steps.
- CloseOnce.ClosedAtMostOnce: the queue is modelled by its length; its content is in `Mailbox`.
- Coverage.NoGap: that a client is listed when it fetches is a premise (its add may have been undone by a deletion in between); taking a client off an object is one step here, and the steps inside it are in `Registration`. Entries are compared as identities, on the wire too: a fan-out frame shows its own message, of a replay the last message is sure to be shown and every other exactly as `ReplayVariable.RoundShownIffWrittenDuring` says.
- Agreement.CleanedUpIsUnlisted: frames sent during deletion are not part of this machine; they are in `Runs` and `Delivery`.
- Runs.DeliveredInOrder: frames are compared as identities; their contents are in `ClientView.ReadsWhatIsShown`.
- Runs.SubscribeReplaysHistory: the frames are told by the push they were sent for; a client that reads them after the whole request reads the last message in each (`ClientView.ReplayReadAsFetchedIffEqual`), and one that reads them during the request what `ReplayVariable` says.
- Coverage.StoredBeforeOffered: an entry stands for the push it was sent for; a replay entry may show a later message of the same replay, which was pushed before too.
- Agreement.AddListsIffPointerIsLive: about one moment; for all that follows see `Agreement.AddLastsIffTopicStays`.
- Runs.SessionsRespected: for runs of whole requests, as are the results of `ClientView`; between the steps of a publish a message may still arrive after an unsubscribe, as `LateFanOut.LateFanOutHappens` shows and `LateFanOut.SilentIffNotAwaited` delimits.
- LateFanOut.SilentIffNotAwaited: a client leaves in one step here, and the acknowledgement of its unsubscribe is not among the entries of `Delivery`.
- FailedSaves.FailedSaveReachesASubscriber: entries are identities here as well.
- Locks.NoDeadlock: a goroutine's program is the sequence of lock operations it will make; the time a slow-consumer notice takes to write under the close lock (up to one second) is not modelled.
- TopicCap.CapHolds: the shard lock makes each read of a table and each insertion one step; deletion is one step.
