/** Runs in which whole requests, deletions and write-loop steps follow one another in any order. */
module Runs {
  import opened Model
  import opened Sums
  import opened Mailbox
  import opened ReplayLog
  import opened FlatBroker
  import opened Sessions

  datatype Event =
    | Connected(c: ClientId)
    | Requested(c: ClientId, incoming: Incoming)
    | Disconnected(c: ClientId)
    | TopicCreated(topic: Name)
    | TopicRemoved(topic: Name)
    | Took(c: ClientId)
    | Wrote(c: ClientId)
    | LostLink(c: ClientId)
    | ListExpired(topic: Name)

  type Asked = map<ClientId, seq<RequestId>>

  /** The broker's world, with what its past leaves to compare it to. */
  datatype State = State(
    world: World,
    left: set<ClientId>,                     // clients whose handler has returned
    asked: Asked,                            // the requests of each client, in order
    pushed: map<Name, seq<Message>>,         // every message pushed for each name, in order
    expired: map<Name, nat>,                 // how many of those an expiry has lost
    read: map<ClientId, seq<ServerMessage>>) // what each client was written through its queue, as it reads it

  const START := State(World(map[], map[], map[]), {}, map[], map[], map[], map[])

  predicate Serving(s: State, c: ClientId) {
    c in s.world.clients && c !in s.left
  }

  function PushedFor(s: State, topic: Name): seq<Message> {
    if topic in s.pushed then s.pushed[topic] else []
  }

  function ExpiredFor(s: State, topic: Name): nat {
    if topic in s.expired then s.expired[topic] else 0
  }

  function ReadBy(s: State, c: ClientId): seq<ServerMessage> {
    if c in s.read then s.read[c] else []
  }

  /** The message a request pushes to the stored list, if it pushes one. */
  function PushOf(w: World, incoming: Incoming): Option<Message> {
    var r := incoming.request;
    if r.messageType == Publish && r.topicName in w.topics && r.topicName != EMPTY_NAME && r.messageData.Some?
       && incoming.replies.push.TookEffect()
    then Some(StampedMessage(r.messageData.value, incoming.freshId)) else None
  }

  /** The client's write loop or connection moves by itself. */
  function AfterBox(w: World, c: ClientId, e: BoxEvent<ServerMessage>): World {
    if c in w.clients then w.(clients := w.clients[c := w.clients[c].(box := BoxStep(w.clients[c].box, e))]) else w
  }

  /** One event; an event that cannot happen now changes nothing. */
  function Step(s: State, e: Event): State {
    var w := s.world;
    match e
    case Connected(c) =>
      if c in w.clients then s
      else s.(world := Connect(w, c), asked := s.asked[c := []])
    case Requested(c, incoming) =>
      if !Serving(s, c) || c !in s.asked then s
      else
        var push := PushOf(w, incoming);
        var topic := incoming.request.topicName;
        s.(world := HandleClientMessage(w, c, incoming.request, incoming.freshId, incoming.replies),
           asked := s.asked[c := s.asked[c] + [incoming.request.requestId]],
           pushed := if push.Some? then s.pushed[topic := PushedFor(s, topic) + [push.value]] else s.pushed)
    case Disconnected(c) =>
      if !Serving(s, c) then s else s.(world := CleanupSubscriber(w, c), left := s.left + {c})
    case TopicCreated(topic) => s.(world := CreateTopic(w, topic).world)
    case TopicRemoved(topic) => s.(world := DeleteTopic(w, topic).world)
    case Took(c) => s.(world := AfterBox(w, c, Taken))
    case Wrote(c) =>
      s.(world := AfterBox(w, c, Flushed),
         read := if c in w.clients && Writes(w.clients[c].box)
                 then s.read[c := ReadBy(s, c) + [Shown(w.clients[c].box.inFlight.value)]] else s.read)
    case LostLink(c) => s.(world := AfterBox(w, c, Dropped))
    case ListExpired(topic) =>
      s.(world := w.(lists := w.lists - {topic}), expired := s.expired[topic := |PushedFor(s, topic)|])
  }

  function Run(events: seq<Event>): State {
    if events == [] then START else Step(Run(events[..|events| - 1]), events[|events| - 1])
  }

  // ---------------------------------------------------------------- the invariant

  /** Topic-lists-client and client-holds-topic are the same relation. */
  ghost predicate CrossIndex(w: World) {
    && (forall n, c {:trigger c in w.topics[n].subscribers} :: n in w.topics && c in w.topics[n].subscribers ==>
          c in w.clients && n in w.clients[c].topics)
    && (forall c, n {:trigger n in w.clients[c].topics} :: c in w.clients && n in w.clients[c].topics ==>
          n in w.topics && c in w.topics[n].subscribers)
  }

  ghost predicate WithinLimits(w: World) {
    && |w.topics| <= MAX_TOPICS_LIMIT
    && forall n :: n in w.topics ==> |w.topics[n].subscribers| <= MAX_SUBSCRIBERS_PER_TOPIC
  }

  /** One client's frames, against the requests it made and the topics it holds. */
  ghost predicate FramesOk(frames: seq<ServerMessage>, topics: set<Name>, asked: seq<RequestId>, left: bool) {
    && Responses(frames) == asked
    && (forall n :: Legal(frames, n))
    && (if left then topics == {} else forall n :: InSession(frames, n) <==> n in topics)
  }

  ghost predicate ClientOk(client: ClientState, asked: seq<RequestId>, left: bool) {
    BoxOk(client.box) && FramesOk(client.box.offered, client.topics, asked, left)
  }

  ghost predicate ClientsOk(w: World, asked: Asked, left: set<ClientId>) {
    && asked.Keys == w.clients.Keys && left <= w.clients.Keys
    && forall c :: c in w.clients ==> ClientOk(w.clients[c], asked[c], c in left)
  }

  ghost predicate Inv(s: State) {
    && ClientsOk(s.world, s.asked, s.left)
    && CrossIndex(s.world)
    && WithinLimits(s.world)
    && ListsOk(s)
  }

  ghost predicate ListsOk(s: State) {
    forall n {:trigger ListOf(s.world.lists, n)} :: Mirrors(ListOf(s.world.lists, n), PushedFor(s, n), ExpiredFor(s, n))
  }

  // ---------------------------------------------------------------- one client's frames

  lemma OfferedOne(box: Box<ServerMessage>, frame: ServerMessage)
    requires BoxOk(box)
    ensures BoxOk(Offer(box, frame)) && Offer(box, frame).offered == box.offered + [frame]
  {
    OfferOk(box, frame);
  }

  lemma {:induction false} OfferedAll(box: Box<ServerMessage>, frames: seq<ServerMessage>)
    requires BoxOk(box)
    ensures BoxOk(OfferAll(box, frames)) && OfferAll(box, frames).offered == box.offered + frames
  {
    if frames != [] {
      var fewer := frames[..|frames| - 1];
      OfferedAll(box, fewer);
      OfferedOne(OfferAll(box, fewer), frames[|frames| - 1]);
      assert frames == fewer + [frames[|frames| - 1]];
    }
  }

  lemma DeliveryOk(frames: seq<ServerMessage>, topics: set<Name>, asked: seq<RequestId>, frame: ServerMessage)
    requires FramesOk(frames, topics, asked, false)
    requires IsMessage(frame) && frame.topic in topics
    ensures FramesOk(frames + [frame], topics, asked, false)
  {
    ResponsesOfConcat(frames, [frame]);
    forall m ensures Legal(frames + [frame], m) {
      LegalAppend(frames, frame, m);
    }
    forall m ensures InSession(frames + [frame], m) <==> m in topics {
      SessionAfter(frames, frame, m);
    }
  }

  lemma EvictionOk(frames: seq<ServerMessage>, topics: set<Name>, asked: seq<RequestId>, n: Name)
    requires FramesOk(frames, topics, asked, false)
    ensures FramesOk(frames + [TopicDeleted(n)], topics - {n}, asked, false)
  {
    var frame := TopicDeleted(n);
    ResponsesOfConcat(frames, [frame]);
    forall m ensures Legal(frames + [frame], m) {
      LegalAppend(frames, frame, m);
    }
    forall m ensures InSession(frames + [frame], m) <==> m in topics - {n} {
      SessionAfter(frames, frame, m);
    }
  }

  /** A response, and what it does to the topics the client holds. */
  lemma ResponseOk(frames: seq<ServerMessage>, topics: set<Name>, asked: seq<RequestId>, frame: ServerMessage,
                   after: set<Name>)
    requires FramesOk(frames, topics, asked, false) && IsResponse(frame)
    requires after == if frame.Ack? && frame.info == Subscribed then topics + {frame.topic}
                      else if frame.Ack? && frame.info == Unsubscribed then topics - {frame.topic}
                      else topics
    ensures FramesOk(frames + [frame], after, asked + [frame.requestId], false)
  {
    ResponsesOfConcat(frames, [frame]);
    assert Responses([frame]) == [frame.requestId];
    forall m ensures Legal(frames + [frame], m) {
      LegalAppend(frames, frame, m);
    }
    forall m ensures InSession(frames + [frame], m) <==> m in after {
      SessionAfter(frames, frame, m);
    }
  }

  lemma ReplayOk(frames: seq<ServerMessage>, topics: set<Name>, asked: seq<RequestId>, n: Name,
                 replay: seq<ServerMessage>, ack: ServerMessage)
    requires FramesOk(frames, topics, asked, false) && Opens(ack, n)
    requires forall i :: 0 <= i < |replay| ==> IsDelivery(replay[i], n)
    ensures FramesOk(frames + replay + [ack], topics + {n}, asked + [ack.requestId], false)
  {
    ResponsesOfConcat(frames, replay);
    NoResponses(replay);
    ResponsesOfConcat(frames + replay, [ack]);
    assert Responses([ack]) == [ack.requestId];
    forall m ensures Legal(frames + replay + [ack], m) {
      LegalReplay(frames, replay, ack, n, m);
    }
    forall m ensures InSession(frames + replay + [ack], m) <==> m in topics + {n} {
      SessionAfterDeliveries(frames, replay, m);
      SessionAfter(frames + replay, ack, m);
    }
  }

  // ---------------------------------------------------------------- what a step does to one client

  /** `after` is `before` once it was offered one response. */
  lemma Answered(client: ClientState, asked: seq<RequestId>, frame: ServerMessage)
    requires ClientOk(client, asked, false) && IsResponse(frame)
    requires frame.Ack? ==> frame.info == Published
    ensures ClientOk(Give(client, frame), asked + [frame.requestId], false)
  {
    OfferedOne(client.box, frame);
    ResponseOk(client.box.offered, client.topics, asked, frame, client.topics);
  }

  lemma GaveDelivery(client: ClientState, asked: seq<RequestId>, n: Name, message: Message)
    requires ClientOk(client, asked, false) && n in client.topics
    ensures ClientOk(Give(client, Delivery(n, message)), asked, false)
  {
    OfferedOne(client.box, Delivery(n, message));
    DeliveryOk(client.box.offered, client.topics, asked, Delivery(n, message));
  }

  lemma WasEvicted(client: ClientState, asked: seq<RequestId>, n: Name)
    requires ClientOk(client, asked, false)
    ensures ClientOk(Evict(client, n), asked, false)
  {
    OfferedOne(client.box, TopicDeleted(n));
    EvictionOk(client.box.offered, client.topics, asked, n);
  }

  lemma WasUnsubscribed(client: ClientState, asked: seq<RequestId>, id: RequestId, n: Name)
    requires ClientOk(client, asked, false)
    ensures ClientOk(Give(client.(topics := client.topics - {n}), Ack(id, n, Unsubscribed)), asked + [id], false)
  {
    OfferedOne(client.box, Ack(id, n, Unsubscribed));
    ResponseOk(client.box.offered, client.topics, asked, Ack(id, n, Unsubscribed), client.topics - {n});
  }

  lemma WasSubscribed(client: ClientState, asked: seq<RequestId>, id: RequestId, n: Name, replay: seq<ServerMessage>)
    requires ClientOk(client, asked, false)
    requires forall i :: 0 <= i < |replay| ==> IsDelivery(replay[i], n)
    ensures var after := Give(GiveAll(client.(topics := client.topics + {n}), replay), Ack(id, n, Subscribed));
            && ClientOk(after, asked + [id], false)
            && after.box.offered == client.box.offered + replay + [Ack(id, n, Subscribed)]
  {
    OfferedAll(client.box, replay);
    OfferedOne(OfferAll(client.box, replay), Ack(id, n, Subscribed));
    ReplayOk(client.box.offered, client.topics, asked, n, replay, Ack(id, n, Subscribed));
  }

  // ---------------------------------------------------------------- what a request does to all clients

  lemma RespondedOk(w: World, asked: Asked, left: set<ClientId>, c: ClientId, frame: ServerMessage)
    requires ClientsOk(w, asked, left) && c in w.clients && c !in left
    requires IsResponse(frame) && (frame.Ack? ==> frame.info == Published)
    ensures ClientsOk(Send(w, c, frame), asked[c := asked[c] + [frame.requestId]], left)
  {
    Answered(w.clients[c], asked[c], frame);
  }

  /** A client that has left holds no topic, so no topic lists it. */
  lemma ListedIsServed(w: World, asked: Asked, left: set<ClientId>, n: Name, c: ClientId)
    requires ClientsOk(w, asked, left) && CrossIndex(w) && n in w.topics && c in w.topics[n].subscribers
    ensures c in w.clients && c !in left && n in w.clients[c].topics
  {}

  lemma PublishedOk(w: World, asked: Asked, left: set<ClientId>, n: Name, message: Message, push: Reply, trim: Reply)
    requires ClientsOk(w, asked, left) && CrossIndex(w)
    ensures ClientsOk(PublishMessage(w, n, message, push, trim).world, asked, left)
  {
    var after := PublishMessage(w, n, message, push, trim);
    if after.error.None? {
      forall c | c in w.clients ensures ClientOk(after.world.clients[c], asked[c], c in left) {
        if c in w.topics[n].subscribers {
          ListedIsServed(w, asked, left, n, c);
          GaveDelivery(w.clients[c], asked[c], n, message);
        }
      }
    }
  }

  lemma SubscribeRequestOk(w: World, asked: Asked, left: set<ClientId>, c: ClientId, r: ClientMessage,
                           replies: StorageReplies)
    requires ClientsOk(w, asked, left) && CrossIndex(w) && c in w.clients && c !in left
    ensures ClientsOk(HandleSubscribe(w, c, r, replies), asked[c := asked[c] + [r.requestId]], left)
  {
    if Subscribes(w, c, r) {
      SubscribedOk(w, asked, left, c, r, replies);
    } else {
      var frame := SubscribeRefused(w, c, r, replies);
      RespondedOk(w, asked, left, c, frame);
    }
  }

  lemma SubscribeRefused(w: World, c: ClientId, r: ClientMessage, replies: StorageReplies) returns (frame: ServerMessage)
    requires c in w.clients && !Subscribes(w, c, r)
    ensures frame.Error? && frame.requestId == r.requestId && HandleSubscribe(w, c, r, replies) == Send(w, c, frame)
  {
    var n, id := r.topicName, r.requestId;
    if n == EMPTY_NAME {
      frame := Error(id, INVALID_MESSAGE, TopicNameRequired);
    } else if n !in w.topics {
      frame := Error(id, TOPIC_NOT_FOUND, TopicDoesNotExist);
    } else {
      frame := Error(id, INTERNAL_ERROR, FromBroker(MaxSubscribers));
    }
  }

  lemma SubscribedOk(w: World, asked: Asked, left: set<ClientId>, c: ClientId, r: ClientMessage, replies: StorageReplies)
    requires ClientsOk(w, asked, left) && CrossIndex(w) && c in w.clients && c !in left && Subscribes(w, c, r)
    ensures ClientsOk(HandleSubscribe(w, c, r, replies), asked[c := asked[c] + [r.requestId]], left)
  {
    WasSubscribed(w.clients[c], asked[c], r.requestId, r.topicName,
                  ReplayFrames(w.lists, r.topicName, r.lastNMessages, replies.range));
    SubscribeAnswer(w, c, r, replies);
    OneChanged(w, asked, left, c, HandleSubscribe(w, c, r, replies), asked[c] + [r.requestId]);
  }

  /** Whether or not the topic listed the client before, now it does, and the client holds it. */
  lemma SubscribedClient(w: World, n: Name, c: ClientId)
    requires CrossIndex(w) && c in w.clients && n in w.topics && SubscribeToTopic(w, n, c).error.None?
    ensures SubscribeToTopic(w, n, c).world.clients == w.clients[c := w.clients[c].(topics := w.clients[c].topics + {n})]
  {
    assert c in w.topics[n].subscribers ==> w.clients[c].topics + {n} == w.clients[c].topics;
  }

  predicate Subscribes(w: World, c: ClientId, r: ClientMessage)
    requires c in w.clients
  {
    r.topicName != EMPTY_NAME && r.topicName in w.topics && SubscribeToTopic(w, r.topicName, c).error.None?
  }

  lemma SubscribeAnswer(w: World, c: ClientId, r: ClientMessage, replies: StorageReplies)
    requires CrossIndex(w) && c in w.clients && Subscribes(w, c, r)
    ensures var client, n := w.clients[c], r.topicName;
            var replay := ReplayFrames(w.lists, n, r.lastNMessages, replies.range);
            HandleSubscribe(w, c, r, replies).clients
            == w.clients[c := Give(GiveAll(client.(topics := client.topics + {n}), replay), Ack(r.requestId, n, Subscribed))]
  {
    SubscribedClient(w, r.topicName, c);
  }

  lemma UnsubscribeAnswer(w: World, c: ClientId, r: ClientMessage)
    requires CrossIndex(w) && c in w.clients && r.topicName != EMPTY_NAME && r.topicName in w.topics
    ensures var client, n := w.clients[c], r.topicName;
            HandleUnsubscribe(w, c, r).clients
            == w.clients[c := Give(client.(topics := client.topics - {n}), Ack(r.requestId, n, Unsubscribed))]
  {
    UnsubscribedClient(w, r.topicName, c);
  }

  lemma UnsubscribedClient(w: World, n: Name, c: ClientId)
    requires CrossIndex(w) && c in w.clients && n in w.topics
    ensures UnsubscribeFromTopic(w, n, c).world.clients
            == w.clients[c := w.clients[c].(topics := w.clients[c].topics - {n})]
  {
    assert c !in w.topics[n].subscribers ==> w.clients[c].topics - {n} == w.clients[c].topics;
  }

  lemma OneChanged(w: World, asked: Asked, left: set<ClientId>, c: ClientId, after: World, ids: seq<RequestId>)
    requires ClientsOk(w, asked, left) && c in w.clients && c !in left && c in after.clients
    requires after.clients == w.clients[c := after.clients[c]] && ClientOk(after.clients[c], ids, false)
    ensures ClientsOk(after, asked[c := ids], left)
  {}

  lemma UnsubscribeRequestOk(w: World, asked: Asked, left: set<ClientId>, c: ClientId, r: ClientMessage)
    requires ClientsOk(w, asked, left) && CrossIndex(w) && c in w.clients && c !in left
    ensures ClientsOk(HandleUnsubscribe(w, c, r), asked[c := asked[c] + [r.requestId]], left)
  {
    var n, id := r.topicName, r.requestId;
    if n == EMPTY_NAME {
      RespondedOk(w, asked, left, c, Error(id, INVALID_MESSAGE, TopicNameRequired));
    } else if n !in w.topics {
      RespondedOk(w, asked, left, c, Error(id, INTERNAL_ERROR, FromBroker(TopicNotFound)));
    } else {
      WasUnsubscribed(w.clients[c], asked[c], id, n);
      UnsubscribeAnswer(w, c, r);
      OneChanged(w, asked, left, c, HandleUnsubscribe(w, c, r), asked[c] + [id]);
    }
  }

  lemma PublishRequestOk(w: World, asked: Asked, left: set<ClientId>, c: ClientId, r: ClientMessage, freshId: string,
                         replies: StorageReplies)
    requires ClientsOk(w, asked, left) && CrossIndex(w) && c in w.clients && c !in left
    ensures ClientsOk(HandlePublish(w, c, r, freshId, replies), asked[c := asked[c] + [r.requestId]], left)
  {
    var n, id := r.topicName, r.requestId;
    if n == EMPTY_NAME {
      RespondedOk(w, asked, left, c, Error(id, INVALID_MESSAGE, TopicNameRequired));
    } else if r.messageData.None? {
      RespondedOk(w, asked, left, c, Error(id, INVALID_MESSAGE, MessageRequired));
    } else {
      var message := StampedMessage(r.messageData.value, freshId);
      PublishedOk(w, asked, left, n, message, replies.push, replies.trim);
      var outcome := PublishMessage(w, n, message, replies.push, replies.trim);
      var frame := if outcome.error.Some? then Error(id, INTERNAL_ERROR, FromBroker(outcome.error.value))
                   else Ack(id, n, Published);
      RespondedOk(outcome.world, asked, left, c, frame);
    }
  }

  lemma RequestOk(w: World, asked: Asked, left: set<ClientId>, c: ClientId, incoming: Incoming)
    requires ClientsOk(w, asked, left) && CrossIndex(w) && c in w.clients && c !in left
    ensures var r := incoming.request;
            ClientsOk(HandleClientMessage(w, c, r, incoming.freshId, incoming.replies),
                      asked[c := asked[c] + [r.requestId]], left)
  {
    var r := incoming.request;
    match r.messageType
    case Subscribe => SubscribeRequestOk(w, asked, left, c, r, incoming.replies);
    case Unsubscribe => UnsubscribeRequestOk(w, asked, left, c, r);
    case Publish => PublishRequestOk(w, asked, left, c, r, incoming.freshId, incoming.replies);
    case Ping => RespondedOk(w, asked, left, c, Pong(r.requestId));
    case Other => RespondedOk(w, asked, left, c, Error(r.requestId, INVALID_MESSAGE, UnknownMessageType));
  }

  lemma TopicRemovedOk(w: World, asked: Asked, left: set<ClientId>, n: Name)
    requires ClientsOk(w, asked, left) && CrossIndex(w)
    ensures ClientsOk(DeleteTopic(w, n).world, asked, left)
  {
    var after := DeleteTopic(w, n);
    if after.error.None? {
      forall c | c in w.clients ensures ClientOk(after.world.clients[c], asked[c], c in left) {
        if c in w.topics[n].subscribers {
          ListedIsServed(w, asked, left, n, c);
          WasEvicted(w.clients[c], asked[c], n);
        }
      }
    }
  }

  lemma CleanedUpClient(w: World, c: ClientId)
    requires CrossIndex(w) && c in w.clients
    ensures CleanupSubscriber(w, c).clients == w.clients[c := ClientState(CloseBox(w.clients[c].box), {})]
  {
    assert ListingIn(w, c, w.clients[c].topics) == w.clients[c].topics;
    assert w.clients[c].topics - w.clients[c].topics == {};
  }

  lemma DisconnectedOk(w: World, asked: Asked, left: set<ClientId>, c: ClientId)
    requires ClientsOk(w, asked, left) && CrossIndex(w) && c in w.clients
    ensures ClientsOk(CleanupSubscriber(w, c), asked, left + {c})
  {
    CleanedUpClient(w, c);
    StepOk(w.clients[c].box, Closed);
  }

  lemma ConnectedOk(w: World, asked: Asked, left: set<ClientId>, c: ClientId)
    requires ClientsOk(w, asked, left) && c !in w.clients
    ensures ClientsOk(Connect(w, c), asked[c := []], left)
  {
    assert ClientOk(NewClient(), [], false);
  }

  lemma BoxStepOk(w: World, asked: Asked, left: set<ClientId>, c: ClientId, e: BoxEvent<ServerMessage>)
    requires ClientsOk(w, asked, left) && !e.Offered?
    ensures ClientsOk(AfterBox(w, c, e), asked, left)
  {
    if c in w.clients {
      StepOk(w.clients[c].box, e);
    }
  }

  lemma ClientsStep(s: State, e: Event)
    requires ClientsOk(s.world, s.asked, s.left) && CrossIndex(s.world)
    ensures var after := Step(s, e); ClientsOk(after.world, after.asked, after.left)
  {
    match e
    case Connected(c) => if c !in s.world.clients { ConnectedOk(s.world, s.asked, s.left, c); }
    case Requested(c, incoming) => RequestedStep(s, c, incoming);
    case Disconnected(c) => if Serving(s, c) { DisconnectedOk(s.world, s.asked, s.left, c); }
    case TopicCreated(n) => TopicStep(s, e);
    case TopicRemoved(n) => TopicStep(s, e);
    case ListExpired(n) => TopicStep(s, e);
    case Took(c) => BoxEventStep(s, e);
    case Wrote(c) => BoxEventStep(s, e);
    case LostLink(c) => BoxEventStep(s, e);
  }

  lemma TopicStep(s: State, e: Event)
    requires ClientsOk(s.world, s.asked, s.left) && CrossIndex(s.world)
    requires e.TopicCreated? || e.TopicRemoved? || e.ListExpired?
    ensures var after := Step(s, e); ClientsOk(after.world, after.asked, after.left)
  {
    match e
    case TopicRemoved(n) => TopicRemovedOk(s.world, s.asked, s.left, n);
    case _ =>
      SameClientsStep(s, e);
      SameClientsOk(s.world, Step(s, e).world, s.asked, s.left);
  }

  lemma SameClientsStep(s: State, e: Event)
    requires e.TopicCreated? || e.ListExpired?
    ensures var after := Step(s, e);
            after.world.clients == s.world.clients && after.asked == s.asked && after.left == s.left
  {}

  lemma BoxEventStep(s: State, e: Event)
    requires ClientsOk(s.world, s.asked, s.left) && (e.Took? || e.Wrote? || e.LostLink?)
    ensures var after := Step(s, e); ClientsOk(after.world, after.asked, after.left)
  {
    match e
    case Took(c) => BoxStepOk(s.world, s.asked, s.left, c, Taken);
    case Wrote(c) => BoxStepOk(s.world, s.asked, s.left, c, Flushed);
    case LostLink(c) => BoxStepOk(s.world, s.asked, s.left, c, Dropped);
    case _ =>
  }

  lemma RequestedStep(s: State, c: ClientId, incoming: Incoming)
    requires ClientsOk(s.world, s.asked, s.left) && CrossIndex(s.world)
    ensures var after := Step(s, Requested(c, incoming)); ClientsOk(after.world, after.asked, after.left)
  {
    if Serving(s, c) {
      RequestOk(s.world, s.asked, s.left, c, incoming);
    }
  }

  lemma SameClientsOk(w: World, after: World, asked: Asked, left: set<ClientId>)
    requires ClientsOk(w, asked, left) && after.clients == w.clients
    ensures ClientsOk(after, asked, left)
  {}

  // ---------------------------------------------------------------- who is listed where

  ghost predicate Indexed(w: World) {
    CrossIndex(w) && WithinLimits(w)
  }

  ghost predicate SameRelation(w: World, after: World) {
    && after.topics.Keys == w.topics.Keys && after.clients.Keys == w.clients.Keys
    && (forall n :: n in w.topics ==> after.topics[n].subscribers == w.topics[n].subscribers)
    && (forall c :: c in w.clients ==> after.clients[c].topics == w.clients[c].topics)
  }

  lemma SameRelationIndexed(w: World, after: World)
    requires Indexed(w) && SameRelation(w, after)
    ensures Indexed(after)
  {}

  lemma SendIndexed(w: World, c: ClientId, frame: ServerMessage)
    requires Indexed(w) && c in w.clients
    ensures Indexed(Send(w, c, frame))
  {
    SameRelationIndexed(w, Send(w, c, frame));
  }

  lemma SendAllIndexed(w: World, c: ClientId, frames: seq<ServerMessage>)
    requires Indexed(w) && c in w.clients
    ensures Indexed(SendAll(w, c, frames))
  {
    SameRelationIndexed(w, SendAll(w, c, frames));
  }

  lemma PublishIndexed(w: World, n: Name, message: Message, push: Reply, trim: Reply)
    requires Indexed(w)
    ensures Indexed(PublishMessage(w, n, message, push, trim).world)
  {
    SameRelationIndexed(w, PublishMessage(w, n, message, push, trim).world);
  }

  lemma SubscribeIndexed(w: World, n: Name, c: ClientId)
    requires Indexed(w) && c in w.clients
    ensures Indexed(SubscribeToTopic(w, n, c).world)
  {}

  lemma UnsubscribeIndexed(w: World, n: Name, c: ClientId)
    requires Indexed(w) && c in w.clients
    ensures Indexed(UnsubscribeFromTopic(w, n, c).world)
  {}

  lemma CreateIndexed(w: World, n: Name)
    requires Indexed(w)
    ensures Indexed(CreateTopic(w, n).world)
  {}

  lemma DeleteIndexed(w: World, n: Name)
    requires Indexed(w)
    ensures Indexed(DeleteTopic(w, n).world)
  {}

  lemma CleanedUpTopics(w: World, c: ClientId)
    requires CrossIndex(w) && c in w.clients
    ensures CleanupSubscriber(w, c).topics.Keys == w.topics.Keys
    ensures forall n :: n in w.topics ==>
              CleanupSubscriber(w, c).topics[n].subscribers == w.topics[n].subscribers - {c}
  {}

  lemma CleanupIndexed(w: World, c: ClientId)
    requires Indexed(w) && c in w.clients
    ensures Indexed(CleanupSubscriber(w, c))
  {
    CleanedUpClient(w, c);
    CleanedUpTopics(w, c);
    Unlisted(w, CleanupSubscriber(w, c), c);
  }

  /** Taking one client off every topic, and every topic off the client. */
  lemma Unlisted(w: World, after: World, c: ClientId)
    requires Indexed(w) && c in w.clients
    requires after.topics.Keys == w.topics.Keys && after.clients.Keys == w.clients.Keys
    requires forall n :: n in w.topics ==> after.topics[n].subscribers == w.topics[n].subscribers - {c}
    requires forall d :: d in w.clients ==> after.clients[d].topics == if d == c then {} else w.clients[d].topics
    ensures Indexed(after)
  {
    forall n | n in w.topics ensures |after.topics[n].subscribers| <= |w.topics[n].subscribers| {
      SubsetSize(after.topics[n].subscribers, w.topics[n].subscribers);
    }
  }

  lemma SubscribeRequestIndexed(w: World, c: ClientId, r: ClientMessage, replies: StorageReplies)
    requires Indexed(w) && c in w.clients
    ensures Indexed(HandleSubscribe(w, c, r, replies))
  {
    if Subscribes(w, c, r) {
      SubscribeIndexed(w, r.topicName, c);
      var joined := SubscribeToTopic(w, r.topicName, c).world;
      var replay := ReplayFrames(w.lists, r.topicName, r.lastNMessages, replies.range);
      SendAllIndexed(joined, c, replay);
      SendIndexed(SendAll(joined, c, replay), c, Ack(r.requestId, r.topicName, Subscribed));
    } else {
      var frame := SubscribeRefused(w, c, r, replies);
      SendIndexed(w, c, frame);
    }
  }

  lemma UnsubscribeRequestIndexed(w: World, c: ClientId, r: ClientMessage)
    requires Indexed(w) && c in w.clients
    ensures Indexed(HandleUnsubscribe(w, c, r))
  {
    var n, id := r.topicName, r.requestId;
    UnsubscribeIndexed(w, n, c);
    if n == EMPTY_NAME {
      SendIndexed(w, c, Error(id, INVALID_MESSAGE, TopicNameRequired));
    } else if n !in w.topics {
      SendIndexed(w, c, Error(id, INTERNAL_ERROR, FromBroker(TopicNotFound)));
    } else {
      SendIndexed(UnsubscribeFromTopic(w, n, c).world, c, Ack(id, n, Unsubscribed));
    }
  }

  lemma PublishRequestIndexed(w: World, c: ClientId, r: ClientMessage, freshId: string, replies: StorageReplies)
    requires Indexed(w) && c in w.clients
    ensures Indexed(HandlePublish(w, c, r, freshId, replies))
  {
    var n, id := r.topicName, r.requestId;
    if n == EMPTY_NAME {
      SendIndexed(w, c, Error(id, INVALID_MESSAGE, TopicNameRequired));
    } else if r.messageData.None? {
      SendIndexed(w, c, Error(id, INVALID_MESSAGE, MessageRequired));
    } else {
      var message := StampedMessage(r.messageData.value, freshId);
      PublishIndexed(w, n, message, replies.push, replies.trim);
      var outcome := PublishMessage(w, n, message, replies.push, replies.trim);
      SendIndexed(outcome.world, c, if outcome.error.Some? then Error(id, INTERNAL_ERROR, FromBroker(outcome.error.value))
                                    else Ack(id, n, Published));
    }
  }

  lemma RequestIndexed(w: World, c: ClientId, incoming: Incoming)
    requires Indexed(w) && c in w.clients
    ensures Indexed(HandleClientMessage(w, c, incoming.request, incoming.freshId, incoming.replies))
  {
    var r := incoming.request;
    match r.messageType
    case Subscribe => SubscribeRequestIndexed(w, c, r, incoming.replies);
    case Unsubscribe => UnsubscribeRequestIndexed(w, c, r);
    case Publish => PublishRequestIndexed(w, c, r, incoming.freshId, incoming.replies);
    case Ping => SendIndexed(w, c, Pong(r.requestId));
    case Other => SendIndexed(w, c, Error(r.requestId, INVALID_MESSAGE, UnknownMessageType));
  }

  lemma IndexedStep(s: State, e: Event)
    requires Indexed(s.world)
    ensures Indexed(Step(s, e).world)
  {
    var w := s.world;
    match e
    case Connected(c) => if c !in w.clients { ConnectIndexed(w, c); }
    case Requested(c, incoming) => if Serving(s, c) { RequestIndexed(w, c, incoming); }
    case Disconnected(c) => if Serving(s, c) { CleanupIndexed(w, c); }
    case TopicCreated(n) => CreateIndexed(w, n);
    case TopicRemoved(n) => DeleteIndexed(w, n);
    case Took(c) => BoxIndexed(w, c, Taken);
    case Wrote(c) => BoxIndexed(w, c, Flushed);
    case LostLink(c) => BoxIndexed(w, c, Dropped);
    case ListExpired(n) => SameRelationIndexed(w, Step(s, e).world);
  }

  lemma ConnectIndexed(w: World, c: ClientId)
    requires Indexed(w) && c !in w.clients
    ensures Indexed(Connect(w, c))
  {}

  lemma BoxIndexed(w: World, c: ClientId, e: BoxEvent<ServerMessage>)
    requires Indexed(w)
    ensures Indexed(AfterBox(w, c, e))
  {
    SameRelationIndexed(w, AfterBox(w, c, e));
  }

  // ---------------------------------------------------------------- the stored lists

  lemma RequestLists(w: World, c: ClientId, incoming: Incoming)
    requires c in w.clients
    ensures var r := incoming.request;
            HandleClientMessage(w, c, r, incoming.freshId, incoming.replies).lists
            == if r.messageType == Publish && r.topicName != EMPTY_NAME && r.messageData.Some? && r.topicName in w.topics
               then Save(w.lists, r.topicName, StampedMessage(r.messageData.value, incoming.freshId),
                         incoming.replies.push, incoming.replies.trim).lists
               else w.lists
  {}

  /** One topic's list after a save, against its history. */
  lemma SaveMirrors(lists: Lists, n: Name, message: Message, push: Reply, trim: Reply, history: seq<Message>, base: nat)
    requires Mirrors(ListOf(lists, n), history, base)
    ensures Mirrors(ListOf(Save(lists, n, message, push, trim).lists, n),
                    if push.TookEffect() then history + [message] else history, base)
  {
    if push.TookEffect() {
      PushMirrors(ListOf(lists, n), history, base, message);
      TrimMirrors(LPush(ListOf(lists, n), message), history + [message], base);
    }
  }

  lemma RequestedLists(s: State, c: ClientId, incoming: Incoming, n: Name)
    requires ListsOk(s)
    ensures var after := Step(s, Requested(c, incoming));
            Mirrors(ListOf(after.world.lists, n), PushedFor(after, n), ExpiredFor(after, n))
  {
    assert Mirrors(ListOf(s.world.lists, n), PushedFor(s, n), ExpiredFor(s, n));
    if Serving(s, c) && c in s.asked {
      RequestLists(s.world, c, incoming);
      if Saves(s, incoming) && incoming.request.topicName == n {
        SavedList(s, c, incoming);
      } else {
        OtherList(s, c, incoming, n);
      }
    }
  }

  predicate Saves(s: State, incoming: Incoming) {
    var r := incoming.request;
    r.messageType == Publish && r.messageData.Some? && r.topicName in s.world.topics && r.topicName != EMPTY_NAME
  }

  lemma SavedList(s: State, c: ClientId, incoming: Incoming)
    requires Serving(s, c) && c in s.asked && Saves(s, incoming)
    requires var n := incoming.request.topicName;
             Mirrors(ListOf(s.world.lists, n), PushedFor(s, n), ExpiredFor(s, n))
    ensures var after, n := Step(s, Requested(c, incoming)), incoming.request.topicName;
            Mirrors(ListOf(after.world.lists, n), PushedFor(after, n), ExpiredFor(after, n))
  {
    var r, n := incoming.request, incoming.request.topicName;
    RequestLists(s.world, c, incoming);
    SaveMirrors(s.world.lists, n, StampedMessage(r.messageData.value, incoming.freshId), incoming.replies.push,
                incoming.replies.trim, PushedFor(s, n), ExpiredFor(s, n));
  }

  lemma OtherList(s: State, c: ClientId, incoming: Incoming, n: Name)
    requires Serving(s, c) && c in s.asked && !(Saves(s, incoming) && incoming.request.topicName == n)
    ensures var after := Step(s, Requested(c, incoming));
            && ListOf(after.world.lists, n) == ListOf(s.world.lists, n)
            && PushedFor(after, n) == PushedFor(s, n) && ExpiredFor(after, n) == ExpiredFor(s, n)
  {
    RequestLists(s.world, c, incoming);
  }

  lemma OtherLists(s: State, e: Event, n: Name)
    requires ListsOk(s) && !e.Requested?
    ensures var after := Step(s, e);
            Mirrors(ListOf(after.world.lists, n), PushedFor(after, n), ExpiredFor(after, n))
  {
    assert Mirrors(ListOf(s.world.lists, n), PushedFor(s, n), ExpiredFor(s, n));
  }

  lemma ListsStep(s: State, e: Event)
    requires ListsOk(s)
    ensures ListsOk(Step(s, e))
  {
    var after := Step(s, e);
    forall n ensures Mirrors(ListOf(after.world.lists, n), PushedFor(after, n), ExpiredFor(after, n)) {
      match e
      case Requested(c, incoming) => RequestedLists(s, c, incoming, n);
      case _ => OtherLists(s, e, n);
    }
  }

  // ---------------------------------------------------------------- over every run

  lemma StepInv(s: State, e: Event)
    requires Inv(s)
    ensures Inv(Step(s, e))
  {
    ClientsStep(s, e);
    IndexedStep(s, e);
    ListsStep(s, e);
  }

  lemma {:induction false} RunInv(events: seq<Event>)
    ensures Inv(Run(events))
  {
    if events != [] {
      RunInv(events[..|events| - 1]);
      StepInv(Run(events[..|events| - 1]), events[|events| - 1]);
    }
  }

  /** What some run leads to. */
  ghost predicate Reachable(s: State) {
    exists events :: Run(events) == s
  }

  lemma ReachableInv(s: State)
    requires Reachable(s)
    ensures Inv(s)
  {
    var events :| Run(events) == s;
    RunInv(events);
  }

  /**
   What each client accepted, and what was written to its connection, begins as what it was offered, frame by frame.
   A frame is known here by what it was sent for; ClientView says what the client reads of it.
   */
  lemma DeliveredInOrder(s: State, c: ClientId)
    requires Reachable(s) && c in s.world.clients
    ensures var box := s.world.clients[c].box;
            && Prefix(box.accepted, box.offered)
            && (!box.closed ==> box.accepted == box.offered)
            && Written(box) <= |box.accepted|
            && (forall i :: 0 <= i < Written(box) ==> box.wire[i] == Data(box.accepted[i]))
            && (Noticed(box) ==> box.closed && !box.up)
  {
    ReachableInv(s);
  }

  /** Every request is answered once: the answers accepted so far carry the first request identifiers, in order. */
  lemma AnsweredInOrder(s: State, c: ClientId)
    requires Reachable(s) && c in s.world.clients && c in s.asked
    ensures var box := s.world.clients[c].box;
            && Responses(box.offered) == s.asked[c]
            && Prefix(Responses(box.accepted), s.asked[c])
            && (!box.closed ==> Responses(box.accepted) == s.asked[c])
  {
    ReachableInv(s);
    var box := s.world.clients[c].box;
    ResponsesOfPrefix(box.offered, |box.accepted|);
  }

  /**
   Every message of a topic a client is offered, and every one it accepts while open, comes inside a subscription to it
   or in a run of such messages that the acknowledgement of a subscribe closes. A client that has closed may have lost
   the end of such a run, but of what it was offered the run was the beginning.
   */
  lemma SessionsRespected(s: State, c: ClientId, n: Name, i: nat)
    requires Reachable(s) && c in s.world.clients
    ensures var box := s.world.clients[c].box;
            && Legal(box.offered, n)
            && (!box.closed ==> Legal(box.accepted, n))
            && (i < |box.accepted| && IsDelivery(box.accepted[i], n) ==>
                  InSession(box.accepted[..i], n) || InAcknowledgedReplay(box.offered, i, n))
  {
    ReachableInv(s);
    var box := s.world.clients[c].box;
    if i < |box.accepted| && IsDelivery(box.accepted[i], n) {
      assert box.accepted[i] == box.offered[i] && box.accepted[..i] == box.offered[..i];
    }
  }

  /** While a client is served, its own set, the topics' lists and the frames it was offered tell the same story. */
  lemma SessionIsListing(s: State, c: ClientId, n: Name)
    requires Reachable(s) && Serving(s, c)
    ensures var w := s.world;
            && (InSession(w.clients[c].box.offered, n) <==> n in w.clients[c].topics)
            && (n in w.clients[c].topics <==> n in w.topics && c in w.topics[n].subscribers)
  {
    ReachableInv(s);
  }

  /** After its cleanup a client is listed nowhere, for good. */
  lemma LeftIsUnlisted(s: State, c: ClientId, n: Name)
    requires Reachable(s) && c in s.left && n in s.world.topics
    ensures c !in s.world.topics[n].subscribers
  {
    ReachableInv(s);
  }

  lemma LimitsHold(s: State)
    requires Reachable(s)
    ensures WithinLimits(s.world)
  {
    ReachableInv(s);
  }

  /** The pairs the topics list, counted by topic and counted by client. */
  lemma DoubleCounting(s: State)
    requires Reachable(s)
    ensures |Pairs(s.world)| == Sum(SizeByTopic(s.world)) == Sum(SizeByClient(s.world))
  {
    ReachableInv(s);
    CountByTopic(s.world);
    CountByClient(s.world);
  }

  ghost function SizeByTopic(w: World): map<Name, nat> {
    map n | n in w.topics.Keys :: |w.topics[n].subscribers|
  }

  /** What GetSubscribedTopicCount returns for each client. */
  ghost function SizeByClient(w: World): map<ClientId, nat> {
    map c | c in w.clients.Keys :: |w.clients[c].topics|
  }

  ghost function Held(w: World): map<ClientId, set<Name>> {
    map c | c in w.clients.Keys :: w.clients[c].topics
  }

  lemma CountByTopic(w: World)
    ensures |Pairs(w)| == Sum(SizeByTopic(w))
  {
    var lists := FlatBroker.Lists(w);
    SumOfLists(lists, w.topics.Keys);
    assert SizeByTopic(w) == map n | n in w.topics.Keys :: |lists[n]|;
  }

  lemma CountByClient(w: World)
    requires CrossIndex(w)
    ensures |Pairs(w)| == Sum(SizeByClient(w))
  {
    var held := Held(w);
    SumOfLists(held, w.clients.Keys);
    assert SizeByClient(w) == map c | c in w.clients.Keys :: |held[c]|;
    SameRelationTransposed(w);
    TransposedCount(PairsIn(held, w.clients.Keys));
  }

  lemma SameRelationTransposed(w: World)
    requires CrossIndex(w)
    ensures Transposed(PairsIn(Held(w), w.clients.Keys)) == Pairs(w)
  {
    var pairs := PairsIn(Held(w), w.clients.Keys);
    forall n, c ensures (n, c) in Transposed(pairs) <==> (n, c) in Pairs(w) {
      assert (c, n) in pairs <==> c in w.clients && n in w.clients[c].topics;
      if (n, c) in Transposed(pairs) {
        var p :| p in pairs && (p.1, p.0) == (n, c);
        assert p == (c, n);
      }
    }
  }

  ghost function Transposed<A(!new), B(!new)>(pairs: set<(A, B)>): set<(B, A)> {
    set p | p in pairs :: (p.1, p.0)
  }

  lemma {:induction false} TransposedCount<A(!new), B(!new)>(pairs: set<(A, B)>)
    ensures |Transposed(pairs)| == |pairs|
    decreases pairs
  {
    if pairs == {} {
      assert Transposed(pairs) == {};
    } else {
      var p :| p in pairs;
      TransposedCount(pairs - {p});
      assert Transposed(pairs) == Transposed(pairs - {p}) + {(p.1, p.0)};
    }
  }

  /** The last pushes for a topic, as many of `count` as its list still has. */
  function Owed(s: State, n: Name, count: nat): seq<Message> {
    LastN(PushedFor(s, n), Min(count, |ListOf(s.world.lists, n)|))
  }

  /** How many pushes no expiry has lost. */
  function KeptFor(s: State, n: Name): int {
    |PushedFor(s, n)| - ExpiredFor(s, n)
  }

  /**
   A successful subscribe that asks for the last `k` messages, any k >= 1, offers the last pushes, oldest first, and
   right after them its acknowledgement: `k` pushes or all that were kept if k <= 100, and otherwise at least 100 of
   those if there are as many.
   */
  lemma SubscribeReplaysHistory(s: State, c: ClientId, incoming: Incoming)
    requires Reachable(s) && Serving(s, c)
    requires incoming.request.messageType == Subscribe && Subscribes(s.world, c, incoming.request)
    requires 1 <= incoming.request.lastNMessages && incoming.replies.range.Applied?
    ensures var after, r := Step(s, Requested(c, incoming)), incoming.request;
            && c in after.world.clients
            && after.world.clients[c].box.offered
               == s.world.clients[c].box.offered
                  + Rounds(r.topicName, Owed(s, r.topicName, r.lastNMessages))
                  + [Ack(r.requestId, r.topicName, Subscribed)]
    ensures var n, k := incoming.request.topicName, incoming.request.lastNMessages;
            Min(k, Min(REPLAY_BUFFER_SIZE, KeptFor(s, n))) <= |Owed(s, n, k)| <= Min(k, KeptFor(s, n))
  {
    ReachableInv(s);
    ReplayIsHistory(s, incoming.request, incoming.replies);
    SubscribeOffers(s.world, s.asked[c], c, incoming.request, incoming.replies);
  }

  lemma ReplayIsHistory(s: State, r: ClientMessage, replies: StorageReplies)
    requires ListsOk(s) && 1 <= r.lastNMessages && replies.range.Applied?
    ensures var n, k := r.topicName, r.lastNMessages;
            && ReplayFrames(s.world.lists, n, k, replies.range) == Rounds(n, Owed(s, n, k))
            && Min(k, Min(REPLAY_BUFFER_SIZE, KeptFor(s, n))) <= |Owed(s, n, k)| <= Min(k, KeptFor(s, n))
  {
    var n, k := r.topicName, r.lastNMessages;
    assert Mirrors(ListOf(s.world.lists, n), PushedFor(s, n), ExpiredFor(s, n));
    FetchIsLastOfHistory(ListOf(s.world.lists, n), PushedFor(s, n), ExpiredFor(s, n), k);
    assert Fetch(s.world.lists, n, k, replies.range) == Some(Owed(s, n, k));
  }

  lemma SubscribeOffers(w: World, asked: seq<RequestId>, c: ClientId, r: ClientMessage, replies: StorageReplies)
    requires CrossIndex(w) && c in w.clients && Subscribes(w, c, r) && ClientOk(w.clients[c], asked, false)
    ensures c in HandleSubscribe(w, c, r, replies).clients
    ensures HandleSubscribe(w, c, r, replies).clients[c].box.offered
            == w.clients[c].box.offered + ReplayFrames(w.lists, r.topicName, r.lastNMessages, replies.range)
               + [Ack(r.requestId, r.topicName, Subscribed)]
  {
    SubscribeAnswer(w, c, r, replies);
    WasSubscribed(w.clients[c], asked, r.requestId, r.topicName,
                  ReplayFrames(w.lists, r.topicName, r.lastNMessages, replies.range));
  }
}
