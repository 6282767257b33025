/**
 What each request and each deletion, creation and disconnection does, told by what every client is offered and by who
 is listed where, in every reachable state of the whole-request runs.
 */
module Answers {
  import opened Model
  import opened Mailbox
  import opened ReplayLog
  import opened FlatBroker
  import opened Runs

  function OfferedTo(s: State, c: ClientId): seq<ServerMessage> {
    if c in s.world.clients then s.world.clients[c].box.offered else []
  }

  function TopicsOf(s: State, c: ClientId): set<Name> {
    if c in s.world.clients then s.world.clients[c].topics else {}
  }

  function ListedAt(s: State, n: Name): set<ClientId> {
    if n in s.world.topics then s.world.topics[n].subscribers else {}
  }

  function CountAt(s: State, n: Name): nat {
    if n in s.world.topics then s.world.topics[n].count else 0
  }

  /** The same topics, the same clients listed at each, and the same names in every client's own set. */
  ghost predicate SameListings(s: State, after: State) {
    && after.world.topics.Keys == s.world.topics.Keys && after.world.clients.Keys == s.world.clients.Keys
    && (forall n :: ListedAt(after, n) == ListedAt(s, n))
    && (forall c :: TopicsOf(after, c) == TopicsOf(s, c))
  }

  ghost predicate SameStores(s: State, after: State) {
    after.world.lists == s.world.lists && after.pushed == s.pushed && after.expired == s.expired
  }

  ghost predicate SameCounts(s: State, after: State) {
    forall n :: CountAt(after, n) == CountAt(s, n)
  }

  /** Client `c` is offered `frames`, nobody else anything. */
  ghost predicate OnlyOffered(s: State, after: State, c: ClientId, frames: seq<ServerMessage>) {
    OfferedTo(after, c) == OfferedTo(s, c) + frames && forall d :: d != c ==> OfferedTo(after, d) == OfferedTo(s, d)
  }

  /** Nothing happens but that `c` is offered one frame. */
  ghost predicate OnlyAnswered(s: State, after: State, c: ClientId, frame: ServerMessage) {
    OnlyOffered(s, after, c, [frame]) && SameListings(s, after) && SameStores(s, after) && SameCounts(s, after)
  }

  lemma SentIsAnswered(s: State, c: ClientId, frame: ServerMessage, after: State)
    requires Inv(s) && c in s.world.clients
    requires after.world == Send(s.world, c, frame) && after.pushed == s.pushed && after.expired == s.expired
    ensures OnlyAnswered(s, after, c, frame)
  {
    OfferedOne(s.world.clients[c].box, frame);
    SendKeepsTheRest(s, c, frame, after);
  }

  lemma SendKeepsTheRest(s: State, c: ClientId, frame: ServerMessage, after: State)
    requires c in s.world.clients && after.world == Send(s.world, c, frame)
    ensures SameListings(s, after) && after.world.lists == s.world.lists && SameCounts(s, after)
  {}

  // ---------------------------------------------------------------- subscribe

  /** The topic has the client already, or room for it. */
  predicate Admits(s: State, n: Name, c: ClientId) {
    n != EMPTY_NAME && n in s.world.topics && (c in ListedAt(s, n) || |ListedAt(s, n)| < 50000)
  }

  lemma AdmitsIsSubscribes(s: State, n: Name, c: ClientId, r: ClientMessage)
    requires c in s.world.clients && r.topicName == n
    ensures Admits(s, n, c) <==> Subscribes(s.world, c, r)
  {}

  /** A subscribe the topic does not admit changes nothing, and is answered with the reason. */
  lemma SubscribeRefusedWithReason(s: State, c: ClientId, incoming: Incoming)
    requires Reachable(s) && Serving(s, c) && incoming.request.messageType == Subscribe
    requires !Admits(s, incoming.request.topicName, c)
    ensures var after, n, id := Step(s, Requested(c, incoming)), incoming.request.topicName, incoming.request.requestId;
            OnlyAnswered(s, after, c,
                         if n == EMPTY_NAME then Error(id, INVALID_MESSAGE, TopicNameRequired)
                         else if n !in s.world.topics then Error(id, TOPIC_NOT_FOUND, TopicDoesNotExist)
                         else Error(id, INTERNAL_ERROR, FromBroker(MaxSubscribers)))
  {
    ReachableInv(s);
    var r := incoming.request;
    var frame := if r.topicName == EMPTY_NAME then Error(r.requestId, INVALID_MESSAGE, TopicNameRequired)
                 else if r.topicName !in s.world.topics then Error(r.requestId, TOPIC_NOT_FOUND, TopicDoesNotExist)
                 else Error(r.requestId, INTERNAL_ERROR, FromBroker(MaxSubscribers));
    RefusedSubscribe(s.world, c, r, incoming.replies, frame);
    SentIsAnswered(s, c, frame, Step(s, Requested(c, incoming)));
  }

  lemma RefusedSubscribe(w: World, c: ClientId, r: ClientMessage, replies: StorageReplies, frame: ServerMessage)
    requires c in w.clients && !Subscribes(w, c, r)
    requires frame == if r.topicName == EMPTY_NAME then Error(r.requestId, INVALID_MESSAGE, TopicNameRequired)
                      else if r.topicName !in w.topics then Error(r.requestId, TOPIC_NOT_FOUND, TopicDoesNotExist)
                      else Error(r.requestId, INTERNAL_ERROR, FromBroker(MaxSubscribers))
    ensures HandleSubscribe(w, c, r, replies) == Send(w, c, frame)
  {}

  /**
   A subscribe the topic admits lists the client there, puts the name into its set, and changes no other listing; the
   client, and nobody else, is offered frames that end with the acknowledgement, all others being replayed messages.
   */
  lemma SubscribeLists(s: State, c: ClientId, incoming: Incoming)
    requires Reachable(s) && Serving(s, c) && incoming.request.messageType == Subscribe
    requires Admits(s, incoming.request.topicName, c)
    ensures var after, n, id := Step(s, Requested(c, incoming)), incoming.request.topicName, incoming.request.requestId;
            && after.world.topics.Keys == s.world.topics.Keys && after.world.clients.Keys == s.world.clients.Keys
            && (forall m :: ListedAt(after, m) == ListedAt(s, m) + if m == n then {c} else {})
            && (forall d :: TopicsOf(after, d) == TopicsOf(s, d) + if d == c then {n} else {})
            && SameStores(s, after) && SameCounts(s, after)
    ensures var after, n, id := Step(s, Requested(c, incoming)), incoming.request.topicName, incoming.request.requestId;
            exists replay :: && OnlyOffered(s, after, c, replay + [Ack(id, n, Subscribed)])
                             && forall f :: f in replay ==> f.Replayed? && f.topic == n
  {
    ReachableInv(s);
    AdmitsIsSubscribes(s, incoming.request.topicName, c, incoming.request);
    SubscribeListings(s, c, incoming);
    SubscribeFrames(s, c, incoming);
  }

  /** A subscribe runs on the topics, the clients and the stored lists as they are, and pushes nothing. */
  lemma SubscribeRuns(s: State, c: ClientId, incoming: Incoming)
    requires Serving(s, c) && c in s.asked && incoming.request.messageType == Subscribe
    ensures var after := Step(s, Requested(c, incoming));
            && after.world == HandleSubscribe(s.world, c, incoming.request, incoming.replies)
            && after.pushed == s.pushed && after.expired == s.expired
  {}

  lemma SubscribeListings(s: State, c: ClientId, incoming: Incoming)
    requires Inv(s) && Serving(s, c) && incoming.request.messageType == Subscribe && Subscribes(s.world, c, incoming.request)
    ensures var after, n := Step(s, Requested(c, incoming)), incoming.request.topicName;
            && after.world.topics.Keys == s.world.topics.Keys && after.world.clients.Keys == s.world.clients.Keys
            && (forall m :: ListedAt(after, m) == ListedAt(s, m) + if m == n then {c} else {})
            && (forall d :: TopicsOf(after, d) == TopicsOf(s, d) + if d == c then {n} else {})
            && SameStores(s, after) && SameCounts(s, after)
  {
    var after := Step(s, Requested(c, incoming));
    SubscribeRuns(s, c, incoming);
    JoinedTopics(s.world, incoming.request.topicName, c);
    SubscribeTopics(s.world, c, incoming.request, incoming.replies);
    SubscribedTopics(s.world, c, incoming.request, incoming.replies);
    Joined(s, after, c, incoming.request.topicName);
  }

  /** The topics and the sets of a state after one client has joined one topic. */
  lemma Joined(s: State, after: State, c: ClientId, n: Name)
    requires c in s.world.clients && n in s.world.topics && after.world.topics.Keys == s.world.topics.Keys
    requires after.world.clients.Keys == s.world.clients.Keys
    requires forall m :: m in s.world.topics ==>
               && after.world.topics[m].count == s.world.topics[m].count
               && after.world.topics[m].subscribers == s.world.topics[m].subscribers + if m == n then {c} else {}
    requires forall d :: d in s.world.clients ==>
               after.world.clients[d].topics == s.world.clients[d].topics + if d == c then {n} else {}
    ensures forall m :: ListedAt(after, m) == ListedAt(s, m) + if m == n then {c} else {}
    ensures forall d :: TopicsOf(after, d) == TopicsOf(s, d) + if d == c then {n} else {}
    ensures SameCounts(s, after)
  {}

  lemma SubscribedTopics(w: World, c: ClientId, r: ClientMessage, replies: StorageReplies)
    requires CrossIndex(w) && c in w.clients && Subscribes(w, c, r)
    ensures var after := HandleSubscribe(w, c, r, replies);
            && after.clients.Keys == w.clients.Keys
            && forall d :: d in w.clients ==>
                 after.clients[d].topics == w.clients[d].topics + if d == c then {r.topicName} else {}
  {
    SubscribeAnswer(w, c, r, replies);
  }

  lemma SubscribeFrames(s: State, c: ClientId, incoming: Incoming)
    requires Inv(s) && Serving(s, c) && incoming.request.messageType == Subscribe && Subscribes(s.world, c, incoming.request)
    ensures var after, n, id := Step(s, Requested(c, incoming)), incoming.request.topicName, incoming.request.requestId;
            exists replay :: && OnlyOffered(s, after, c, replay + [Ack(id, n, Subscribed)])
                             && forall f :: f in replay ==> f.Replayed? && f.topic == n
  {
    var r, w, after := incoming.request, s.world, Step(s, Requested(c, incoming));
    var replay := ReplayFrames(w.lists, r.topicName, r.lastNMessages, incoming.replies.range);
    SubscribeRuns(s, c, incoming);
    SubscribeAnswer(w, c, r, incoming.replies);
    SubscribeOffers(w, s.asked[c], c, r, incoming.replies);
    OneOffered(s, after, c, replay, Ack(r.requestId, r.topicName, Subscribed));
    AllReplayed(w.lists, r.topicName, r.lastNMessages, incoming.replies.range);
  }

  lemma OneOffered(s: State, after: State, c: ClientId, frames: seq<ServerMessage>, last: ServerMessage)
    requires c in s.world.clients && c in after.world.clients
    requires after.world.clients == s.world.clients[c := after.world.clients[c]]
    requires after.world.clients[c].box.offered == s.world.clients[c].box.offered + frames + [last]
    ensures OnlyOffered(s, after, c, frames + [last])
  {}

  lemma AllReplayed(lists: Lists, n: Name, lastN: int, range: Reply)
    ensures forall f :: f in ReplayFrames(lists, n, lastN, range) ==> f.Replayed? && f.topic == n
  {}

  lemma JoinedTopics(w: World, n: Name, c: ClientId)
    requires CrossIndex(w) && c in w.clients && n in w.topics && SubscribeToTopic(w, n, c).error.None?
    ensures var after := SubscribeToTopic(w, n, c).world;
            && after.topics.Keys == w.topics.Keys && after.lists == w.lists
            && forall m :: m in w.topics ==>
                 && after.topics[m].count == w.topics[m].count
                 && after.topics[m].subscribers == w.topics[m].subscribers + if m == n then {c} else {}
  {}

  lemma SubscribeTopics(w: World, c: ClientId, r: ClientMessage, replies: StorageReplies)
    requires c in w.clients && Subscribes(w, c, r)
    ensures var after := HandleSubscribe(w, c, r, replies);
            after.topics == SubscribeToTopic(w, r.topicName, c).world.topics && after.lists == w.lists
  {}

  /**
   A subscribe that asks for no replay, or whose fetch fails, is answered with the acknowledgement alone: nothing of the
   stored list is sent.
   */
  lemma NoReplayUnlessAskedAndFetched(s: State, c: ClientId, incoming: Incoming)
    requires Reachable(s) && Serving(s, c) && incoming.request.messageType == Subscribe
    requires Admits(s, incoming.request.topicName, c)
    requires incoming.request.lastNMessages <= 0 || !incoming.replies.range.Applied?
    ensures var after, n, id := Step(s, Requested(c, incoming)), incoming.request.topicName, incoming.request.requestId;
            OnlyOffered(s, after, c, [Ack(id, n, Subscribed)])
  {
    ReachableInv(s);
    var r, w := incoming.request, s.world;
    AdmitsIsSubscribes(s, r.topicName, c, r);
    NothingFetched(w.lists, r, incoming.replies.range);
    SubscribeAnswer(w, c, r, incoming.replies);
    SubscribeOffers(w, s.asked[c], c, r, incoming.replies);
    assert OfferedTo(s, c) + [] == OfferedTo(s, c);
  }

  lemma NothingFetched(lists: Lists, r: ClientMessage, range: Reply)
    requires r.lastNMessages <= 0 || !range.Applied?
    ensures ReplayFrames(lists, r.topicName, r.lastNMessages, range) == []
  {}

  // ---------------------------------------------------------------- unsubscribe, ping and the rest

  /** An unsubscribe of an existing topic takes the client off it and the name out of its set, listed or not, and acknowledges. */
  lemma UnsubscribeUnlists(s: State, c: ClientId, incoming: Incoming)
    requires Reachable(s) && Serving(s, c) && incoming.request.messageType == Unsubscribe
    requires incoming.request.topicName != EMPTY_NAME && incoming.request.topicName in s.world.topics
    ensures var after, n, id := Step(s, Requested(c, incoming)), incoming.request.topicName, incoming.request.requestId;
            && after.world.topics.Keys == s.world.topics.Keys && after.world.clients.Keys == s.world.clients.Keys
            && (forall m :: ListedAt(after, m) == ListedAt(s, m) - if m == n then {c} else {})
            && (forall d :: TopicsOf(after, d) == TopicsOf(s, d) - if d == c then {n} else {})
            && SameStores(s, after) && SameCounts(s, after)
            && OnlyOffered(s, after, c, [Ack(id, n, Unsubscribed)])
  {
    ReachableInv(s);
    UnsubscribeListings(s, c, incoming);
    UnsubscribeFrames(s, c, incoming);
  }

  lemma UnsubscribeRuns(s: State, c: ClientId, incoming: Incoming)
    requires Serving(s, c) && c in s.asked && incoming.request.messageType == Unsubscribe
    ensures var after := Step(s, Requested(c, incoming));
            && after.world == HandleUnsubscribe(s.world, c, incoming.request)
            && after.pushed == s.pushed && after.expired == s.expired
  {}

  lemma UnsubscribeListings(s: State, c: ClientId, incoming: Incoming)
    requires Inv(s) && Serving(s, c) && incoming.request.messageType == Unsubscribe
    requires incoming.request.topicName != EMPTY_NAME && incoming.request.topicName in s.world.topics
    ensures var after, n := Step(s, Requested(c, incoming)), incoming.request.topicName;
            && after.world.topics.Keys == s.world.topics.Keys && after.world.clients.Keys == s.world.clients.Keys
            && (forall m :: ListedAt(after, m) == ListedAt(s, m) - if m == n then {c} else {})
            && (forall d :: TopicsOf(after, d) == TopicsOf(s, d) - if d == c then {n} else {})
            && SameStores(s, after) && SameCounts(s, after)
  {
    UnsubscribeRuns(s, c, incoming);
    LeftTopics(s.world, incoming.request.topicName, c);
    UnsubscribeTopics(s.world, c, incoming.request);
    UnsubscribedTopics(s.world, c, incoming.request);
    Left(s, Step(s, Requested(c, incoming)), c, incoming.request.topicName);
  }

  lemma Left(s: State, after: State, c: ClientId, n: Name)
    requires c in s.world.clients && n in s.world.topics && after.world.topics.Keys == s.world.topics.Keys
    requires after.world.clients.Keys == s.world.clients.Keys
    requires forall m :: m in s.world.topics ==>
               && after.world.topics[m].count == s.world.topics[m].count
               && after.world.topics[m].subscribers == s.world.topics[m].subscribers - if m == n then {c} else {}
    requires forall d :: d in s.world.clients ==>
               after.world.clients[d].topics == s.world.clients[d].topics - if d == c then {n} else {}
    ensures forall m :: ListedAt(after, m) == ListedAt(s, m) - if m == n then {c} else {}
    ensures forall d :: TopicsOf(after, d) == TopicsOf(s, d) - if d == c then {n} else {}
    ensures SameCounts(s, after)
  {}

  lemma UnsubscribedTopics(w: World, c: ClientId, r: ClientMessage)
    requires CrossIndex(w) && c in w.clients && r.topicName != EMPTY_NAME && r.topicName in w.topics
    ensures var after := HandleUnsubscribe(w, c, r);
            && after.clients.Keys == w.clients.Keys
            && forall d :: d in w.clients ==>
                 after.clients[d].topics == w.clients[d].topics - if d == c then {r.topicName} else {}
  {
    UnsubscribeAnswer(w, c, r);
  }

  lemma UnsubscribeFrames(s: State, c: ClientId, incoming: Incoming)
    requires Inv(s) && Serving(s, c) && incoming.request.messageType == Unsubscribe
    requires incoming.request.topicName != EMPTY_NAME && incoming.request.topicName in s.world.topics
    ensures OnlyOffered(s, Step(s, Requested(c, incoming)), c,
                        [Ack(incoming.request.requestId, incoming.request.topicName, Unsubscribed)])
  {
    var r, w := incoming.request, s.world;
    UnsubscribeRuns(s, c, incoming);
    UnsubscribeAnswer(w, c, r);
    OfferedOne(w.clients[c].box, Ack(r.requestId, r.topicName, Unsubscribed));
    OneOffered(s, Step(s, Requested(c, incoming)), c, [], Ack(r.requestId, r.topicName, Unsubscribed));
    assert [] + [Ack(r.requestId, r.topicName, Unsubscribed)] == [Ack(r.requestId, r.topicName, Unsubscribed)];
  }

  lemma LeftTopics(w: World, n: Name, c: ClientId)
    requires c in w.clients && n in w.topics
    ensures var after := UnsubscribeFromTopic(w, n, c).world;
            && after.topics.Keys == w.topics.Keys && after.lists == w.lists
            && forall m :: m in w.topics ==>
                 && after.topics[m].count == w.topics[m].count
                 && after.topics[m].subscribers == w.topics[m].subscribers - if m == n then {c} else {}
  {}

  lemma UnsubscribeTopics(w: World, c: ClientId, r: ClientMessage)
    requires c in w.clients && r.topicName != EMPTY_NAME && r.topicName in w.topics
    ensures var after := HandleUnsubscribe(w, c, r);
            after.topics == UnsubscribeFromTopic(w, r.topicName, c).world.topics && after.lists == w.lists
  {}

  /** Any other unsubscribe, a ping, and a request of no known type change nothing and get their own answer. */
  lemma AnsweredOnly(s: State, c: ClientId, incoming: Incoming)
    requires Reachable(s) && Serving(s, c)
    requires var r := incoming.request;
             || r.messageType == Ping || r.messageType == Other
             || (r.messageType == Unsubscribe && (r.topicName == EMPTY_NAME || r.topicName !in s.world.topics))
    ensures var after, r := Step(s, Requested(c, incoming)), incoming.request;
            OnlyAnswered(s, after, c,
                         if r.messageType == Ping then Pong(r.requestId)
                         else if r.messageType == Other then Error(r.requestId, INVALID_MESSAGE, UnknownMessageType)
                         else if r.topicName == EMPTY_NAME then Error(r.requestId, INVALID_MESSAGE, TopicNameRequired)
                         else Error(r.requestId, INTERNAL_ERROR, FromBroker(TopicNotFound)))
  {
    ReachableInv(s);
    var r := incoming.request;
    var frame := if r.messageType == Ping then Pong(r.requestId)
                 else if r.messageType == Other then Error(r.requestId, INVALID_MESSAGE, UnknownMessageType)
                 else if r.topicName == EMPTY_NAME then Error(r.requestId, INVALID_MESSAGE, TopicNameRequired)
                 else Error(r.requestId, INTERNAL_ERROR, FromBroker(TopicNotFound));
    SentOnly(s, c, incoming, frame);
    SentIsAnswered(s, c, frame, Step(s, Requested(c, incoming)));
  }

  lemma SentOnly(s: State, c: ClientId, incoming: Incoming, frame: ServerMessage)
    requires Serving(s, c) && c in s.asked
    requires var r := incoming.request;
             || (r.messageType == Ping && frame == Pong(r.requestId))
             || (r.messageType == Other && frame == Error(r.requestId, INVALID_MESSAGE, UnknownMessageType))
             || (r.messageType == Unsubscribe && r.topicName == EMPTY_NAME
                 && frame == Error(r.requestId, INVALID_MESSAGE, TopicNameRequired))
             || (r.messageType == Unsubscribe && r.topicName != EMPTY_NAME && r.topicName !in s.world.topics
                 && frame == Error(r.requestId, INTERNAL_ERROR, FromBroker(TopicNotFound)))
    ensures var after := Step(s, Requested(c, incoming));
            after.world == Send(s.world, c, frame) && after.pushed == s.pushed && after.expired == s.expired
  {}

  // ---------------------------------------------------------------- publish

  /** The request names an existing topic and brings a message. */
  predicate Publishable(s: State, r: ClientMessage) {
    r.topicName != EMPTY_NAME && r.messageData.Some? && r.topicName in s.world.topics
  }

  /** The published message: the payload given, under the identifier given or, if it gave none, the generated one. */
  predicate IsPublished(m: Message, data: Message, freshId: string) {
    m.payload == data.payload && m.id == if data.id != "" then data.id else freshId
  }

  /** A publish that names no topic, brings no message or finds no topic changes nothing and is answered with the reason. */
  lemma PublishRefusedWithReason(s: State, c: ClientId, incoming: Incoming)
    requires Reachable(s) && Serving(s, c) && incoming.request.messageType == Publish
    requires !Publishable(s, incoming.request)
    ensures var after, r := Step(s, Requested(c, incoming)), incoming.request;
            OnlyAnswered(s, after, c,
                         if r.topicName == EMPTY_NAME then Error(r.requestId, INVALID_MESSAGE, TopicNameRequired)
                         else if r.messageData.None? then Error(r.requestId, INVALID_MESSAGE, MessageRequired)
                         else Error(r.requestId, INTERNAL_ERROR, FromBroker(TopicNotFound)))
  {
    ReachableInv(s);
    var r := incoming.request;
    var frame := if r.topicName == EMPTY_NAME then Error(r.requestId, INVALID_MESSAGE, TopicNameRequired)
                 else if r.messageData.None? then Error(r.requestId, INVALID_MESSAGE, MessageRequired)
                 else Error(r.requestId, INTERNAL_ERROR, FromBroker(TopicNotFound));
    UnpublishableSends(s, c, incoming, frame);
    SentIsAnswered(s, c, frame, Step(s, Requested(c, incoming)));
  }

  lemma UnpublishableSends(s: State, c: ClientId, incoming: Incoming, frame: ServerMessage)
    requires Serving(s, c) && c in s.asked && incoming.request.messageType == Publish && !Publishable(s, incoming.request)
    requires var r := incoming.request;
             frame == if r.topicName == EMPTY_NAME then Error(r.requestId, INVALID_MESSAGE, TopicNameRequired)
                      else if r.messageData.None? then Error(r.requestId, INVALID_MESSAGE, MessageRequired)
                      else Error(r.requestId, INTERNAL_ERROR, FromBroker(TopicNotFound))
    ensures var after := Step(s, Requested(c, incoming));
            after.world == Send(s.world, c, frame) && after.pushed == s.pushed && after.expired == s.expired
  {}

  /** Both calls of the save came back without an error. */
  predicate SaveSucceeds(replies: StorageReplies) {
    replies.push.Applied? && replies.trim.Applied?
  }

  /** What a client is offered when `c` publishes `m` to `n`, by whether it is listed and whether it is the publisher. */
  function PublishFrames(s: State, c: ClientId, n: Name, m: Message, id: RequestId, saved: bool, d: ClientId)
    : seq<ServerMessage>
  {
    (if saved && d in ListedAt(s, n) then [Delivery(n, m)] else [])
    + (if d == c then [if saved then Ack(id, n, Published) else Error(id, INTERNAL_ERROR, FromBroker(PersistFailed))] else [])
  }

  /**
   A publish that reaches the store pushes its message there, unless the store refused the push, and to no other topic's
   history. If both calls succeed, the topic's count goes up by one, each listed client is offered the message once and
   the publisher "published"; otherwise the publisher alone is answered, with the failure. No listing changes.
   */
  lemma PublishTakesEffect(s: State, c: ClientId, incoming: Incoming) returns (m: Message)
    requires Reachable(s) && Serving(s, c) && incoming.request.messageType == Publish
    requires Publishable(s, incoming.request)
    ensures IsPublished(m, incoming.request.messageData.value, incoming.freshId)
    ensures var after, n, saved := Step(s, Requested(c, incoming)), incoming.request.topicName, SaveSucceeds(incoming.replies);
            && SameListings(s, after) && after.expired == s.expired
            && (forall k :: CountAt(after, k) == CountAt(s, k) + if saved && k == n then 1 else 0)
            && (forall k :: PushedFor(after, k)
                            == PushedFor(s, k) + if k == n && !incoming.replies.push.Refused? then [m] else [])
            && (forall d :: OfferedTo(after, d)
                            == OfferedTo(s, d) + if d in s.world.clients
                                                 then PublishFrames(s, c, n, m, incoming.request.requestId, saved, d) else [])
  {
    ReachableInv(s);
    var r := incoming.request;
    var data := r.messageData.value;
    m := Message(if data.id != "" then data.id else incoming.freshId, data.payload);
    PublishHistory(s, c, incoming, m);
    PublishListings(s, c, incoming, m);
    forall d | d in s.world.clients
      ensures OfferedTo(Step(s, Requested(c, incoming)), d)
              == OfferedTo(s, d) + PublishFrames(s, c, r.topicName, m, r.requestId, SaveSucceeds(incoming.replies), d)
    {
      PublishOffersTo(s, c, incoming, m, d);
    }
  }

  lemma PublishHistory(s: State, c: ClientId, incoming: Incoming, m: Message)
    requires Serving(s, c) && c in s.asked && incoming.request.messageType == Publish && Publishable(s, incoming.request)
    requires m == Message(if incoming.request.messageData.value.id != "" then incoming.request.messageData.value.id
                          else incoming.freshId, incoming.request.messageData.value.payload)
    ensures var after, n := Step(s, Requested(c, incoming)), incoming.request.topicName;
            && after.expired == s.expired
            && forall k :: PushedFor(after, k) == PushedFor(s, k) + if k == n && !incoming.replies.push.Refused? then [m] else []
  {}

  lemma PublishRuns(s: State, c: ClientId, incoming: Incoming)
    requires Serving(s, c) && c in s.asked && incoming.request.messageType == Publish
    ensures Step(s, Requested(c, incoming)).world
            == HandlePublish(s.world, c, incoming.request, incoming.freshId, incoming.replies)
  {}

  lemma PublishListings(s: State, c: ClientId, incoming: Incoming, m: Message)
    requires Serving(s, c) && c in s.asked && incoming.request.messageType == Publish && Publishable(s, incoming.request)
    ensures var after, n := Step(s, Requested(c, incoming)), incoming.request.topicName;
            && SameListings(s, after)
            && forall k :: CountAt(after, k) == CountAt(s, k) + if SaveSucceeds(incoming.replies) && k == n then 1 else 0
  {
    PublishRuns(s, c, incoming);
    PublishCounts(s.world, c, incoming.request, incoming, m);
  }

  lemma PublishCounts(w: World, c: ClientId, r: ClientMessage, incoming: Incoming, m: Message)
    requires c in w.clients && r == incoming.request && r.topicName != EMPTY_NAME && r.messageData.Some? && r.topicName in w.topics
    ensures var after, saved := HandlePublish(w, c, r, incoming.freshId, incoming.replies), SaveSucceeds(incoming.replies);
            && after.topics.Keys == w.topics.Keys && after.clients.Keys == w.clients.Keys
            && (forall k :: k in w.topics ==>
                  && after.topics[k].subscribers == w.topics[k].subscribers
                  && after.topics[k].count == w.topics[k].count + if saved && k == r.topicName then 1 else 0)
            && (forall d :: d in w.clients ==> after.clients[d].topics == w.clients[d].topics)
  {}

  lemma PublishBox(w: World, c: ClientId, incoming: Incoming, m: Message, d: ClientId)
    requires c in w.clients && d in w.clients
    requires var r := incoming.request; r.topicName != EMPTY_NAME && r.messageData.Some? && r.topicName in w.topics
    requires m == Message(if incoming.request.messageData.value.id != "" then incoming.request.messageData.value.id
                          else incoming.freshId, incoming.request.messageData.value.payload)
    ensures var r := incoming.request;
            var after, saved := HandlePublish(w, c, r, incoming.freshId, incoming.replies), SaveSucceeds(incoming.replies);
            && d in after.clients
            && var sent := if saved && d in w.topics[r.topicName].subscribers then Offer(w.clients[d].box, Delivery(r.topicName, m))
                           else w.clients[d].box;
            after.clients[d].box
            == if d == c then Offer(sent, if saved then Ack(r.requestId, r.topicName, Published)
                                          else Error(r.requestId, INTERNAL_ERROR, FromBroker(PersistFailed)))
               else sent
  {}

  lemma PublishOffersTo(s: State, c: ClientId, incoming: Incoming, m: Message, d: ClientId)
    requires Inv(s) && Serving(s, c) && d in s.world.clients && incoming.request.messageType == Publish
    requires Publishable(s, incoming.request)
    requires m == Message(if incoming.request.messageData.value.id != "" then incoming.request.messageData.value.id
                          else incoming.freshId, incoming.request.messageData.value.payload)
    ensures var r := incoming.request;
            OfferedTo(Step(s, Requested(c, incoming)), d)
            == OfferedTo(s, d) + PublishFrames(s, c, r.topicName, m, r.requestId, SaveSucceeds(incoming.replies), d)
  {
    var r, box := incoming.request, s.world.clients[d].box;
    PublishBox(s.world, c, incoming, m, d);
    OfferTwice(box, PublishFrames(s, c, r.topicName, m, r.requestId, SaveSucceeds(incoming.replies), d));
  }

  /** Offering is recorded, whatever becomes of the frame. */
  lemma OfferTwice(box: Box<ServerMessage>, frames: seq<ServerMessage>)
    requires |frames| <= 2
    ensures |frames| == 0 ==> box.offered + frames == box.offered
    ensures |frames| == 1 ==> Offer(box, frames[0]).offered == box.offered + frames
    ensures |frames| == 2 ==> Offer(Offer(box, frames[0]), frames[1]).offered == box.offered + frames
  {}

  /** The publisher is told "published" if and only if the name and the message were given, the topic exists and both calls succeeded. */
  lemma PublishedIffSaved(s: State, c: ClientId, incoming: Incoming)
    requires Reachable(s) && Serving(s, c) && incoming.request.messageType == Publish
    ensures var after, r := Step(s, Requested(c, incoming)), incoming.request;
            && |OfferedTo(after, c)| > |OfferedTo(s, c)|
            && (OfferedTo(after, c)[|OfferedTo(after, c)| - 1] == Ack(r.requestId, r.topicName, Published)
                <==> Publishable(s, r) && SaveSucceeds(incoming.replies))
  {
    if Publishable(s, incoming.request) {
      var m := PublishTakesEffect(s, c, incoming);
    } else {
      PublishRefusedWithReason(s, c, incoming);
    }
  }

  // ---------------------------------------------------------------- topics come and go

  /** Which error a creation reports, the first that applies; it succeeds if none does. */
  lemma CreationAnswers(w: World, n: Name)
    ensures CreateTopic(w, n).error == Some(TopicNameEmpty) <==> n == EMPTY_NAME
    ensures CreateTopic(w, n).error == Some(MaxTopicsReached) <==> n != EMPTY_NAME && |w.topics| >= 10000
    ensures CreateTopic(w, n).error == Some(TopicAlreadyExists) <==> n != EMPTY_NAME && |w.topics| < 10000 && n in w.topics
    ensures CreateTopic(w, n).error == None <==> n != EMPTY_NAME && |w.topics| < 10000 && n !in w.topics
  {}

  /** A creation adds the one topic, with no subscriber and no message counted, exactly if it may; otherwise it changes nothing. */
  lemma CreationAddsOne(s: State, n: Name)
    ensures var after := Step(s, TopicCreated(n));
            if n != EMPTY_NAME && n !in s.world.topics && |s.world.topics| < 10000 then
              && after.world.topics.Keys == s.world.topics.Keys + {n}
              && ListedAt(after, n) == {} && CountAt(after, n) == 0
              && (forall m :: m != n ==> ListedAt(after, m) == ListedAt(s, m) && CountAt(after, m) == CountAt(s, m))
              && after.world.clients == s.world.clients && SameStores(s, after)
            else after == s
  {}

  /** A deletion of a topic there is takes it out, and the name out of every client's set; each client listed there, and nobody else, is told. */
  lemma DeletionTellsTheListed(s: State, n: Name)
    requires Reachable(s) && n in s.world.topics
    ensures var after := Step(s, TopicRemoved(n));
            && DeleteTopic(s.world, n).error == None
            && after.world.topics == s.world.topics - {n} && after.world.clients.Keys == s.world.clients.Keys
            && (forall d :: TopicsOf(after, d) == TopicsOf(s, d) - {n})
            && (forall d :: OfferedTo(after, d) == OfferedTo(s, d) + if d in ListedAt(s, n) then [TopicDeleted(n)] else [])
            && SameStores(s, after)
  {
    ReachableInv(s);
    DeletionRuns(s, n);
    forall d | d in s.world.clients
      ensures TopicsOf(Step(s, TopicRemoved(n)), d) == TopicsOf(s, d) - {n}
      ensures OfferedTo(Step(s, TopicRemoved(n)), d) == OfferedTo(s, d) + if d in ListedAt(s, n) then [TopicDeleted(n)] else []
    {
      DeletionTells(s.world, n, d);
    }
  }

  lemma DeletionRuns(s: State, n: Name)
    requires n in s.world.topics
    ensures DeleteTopic(s.world, n).error == None
    ensures Step(s, TopicRemoved(n)) == s.(world := DeleteTopic(s.world, n).world)
    ensures var after := DeleteTopic(s.world, n).world;
            after.topics == s.world.topics - {n} && after.clients.Keys == s.world.clients.Keys && after.lists == s.world.lists
  {}

  lemma DeletionTells(w: World, n: Name, d: ClientId)
    requires CrossIndex(w) && n in w.topics && d in w.clients && BoxOk(w.clients[d].box)
    ensures d in DeleteTopic(w, n).world.clients
    ensures var was, now := w.clients[d], DeleteTopic(w, n).world.clients[d];
            && now.topics == was.topics - {n}
            && now.box.offered == was.box.offered + if d in w.topics[n].subscribers then [TopicDeleted(n)] else []
  {
    OfferedOne(w.clients[d].box, TopicDeleted(n));
  }

  /** A deletion of a topic there is not reports so and changes nothing. */
  lemma DeletionOfNothing(s: State, n: Name)
    requires n !in s.world.topics
    ensures DeleteTopic(s.world, n).error == Some(TopicNotFound) && Step(s, TopicRemoved(n)) == s
  {}

  // ---------------------------------------------------------------- connecting and leaving

  /** A client that connects starts open, holding no topic, with nothing offered. */
  lemma ConnectionStartsEmpty(s: State, c: ClientId)
    requires c !in s.world.clients
    ensures var after := Step(s, Connected(c));
            && after.world.clients.Keys == s.world.clients.Keys + {c}
            && OfferedTo(after, c) == [] && TopicsOf(after, c) == {}
            && !after.world.clients[c].box.closed && after.world.clients[c].box.up && after.world.clients[c].box.writing
            && (forall d :: d in s.world.clients ==> after.world.clients[d] == s.world.clients[d])
            && after.world.topics == s.world.topics && SameStores(s, after)
  {}

  /** A cleanup takes the client off every topic, empties its set, closes it, and does nothing to anyone else. */
  lemma CleanupLeavesAll(s: State, c: ClientId)
    requires Reachable(s) && Serving(s, c)
    ensures var after := Step(s, Disconnected(c));
            && after.world.topics.Keys == s.world.topics.Keys && after.world.clients.Keys == s.world.clients.Keys
            && (forall m :: ListedAt(after, m) == ListedAt(s, m) - {c}) && SameCounts(s, after) && SameStores(s, after)
            && TopicsOf(after, c) == {} && OfferedTo(after, c) == OfferedTo(s, c)
            && after.world.clients[c].box.closed && !after.world.clients[c].box.up
            && (forall d :: d in s.world.clients && d != c ==> after.world.clients[d] == s.world.clients[d])
  {
    ReachableInv(s);
    CleanedUpClient(s.world, c);
    CleanedUpTopics(s.world, c);
    CleanedUpCounts(s.world, c);
    assert BoxOk(s.world.clients[c].box);
  }

  lemma CleanedUpCounts(w: World, c: ClientId)
    requires c in w.clients
    ensures CleanupSubscriber(w, c).lists == w.lists && CleanupSubscriber(w, c).topics.Keys == w.topics.Keys
    ensures forall n :: n in w.topics ==> CleanupSubscriber(w, c).topics[n].count == w.topics[n].count
  {}
}
