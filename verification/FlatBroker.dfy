/**
 The broker as one flat table of topics, one table of clients and the stored replay lists, with each
 operation a function on the whole. The classes Subscriber, Topic, Shard, Broker and ConnectionHandler are proved to
 compute these functions.
 */
module FlatBroker {
  import opened Model
  import opened Mailbox
  import opened ReplayLog
  import opened Sums

  datatype TopicState = TopicState(subscribers: set<ClientId>, count: nat)

  datatype ClientState = ClientState(box: Box<ServerMessage>, topics: set<Name>)

  datatype World = World(
    topics: map<Name, TopicState>,
    clients: map<ClientId, ClientState>,
    lists: Lists)

  datatype Outcome = Outcome(world: World, error: Option<BrokerError>)

  /** How the storage calls made on behalf of one request end. */
  datatype StorageReplies = StorageReplies(push: Reply, trim: Reply, range: Reply)

  function Give(client: ClientState, frame: ServerMessage): ClientState {
    client.(box := Offer(client.box, frame))
  }

  function GiveAll(client: ClientState, frames: seq<ServerMessage>): ClientState {
    client.(box := OfferAll(client.box, frames))
  }

  /** One topic's client is told the topic is gone. */
  function Evict(client: ClientState, topic: Name): ClientState {
    Give(client, TopicDeleted(topic)).(topics := client.topics - {topic})
  }

  function NewClient(): ClientState {
    ClientState(NewBox(), {})
  }

  function Connect(w: World, c: ClientId): World {
    w.(clients := w.clients[c := NewClient()])
  }

  function CreateTopic(w: World, topic: Name): Outcome {
    if topic == EMPTY_NAME then Outcome(w, Some(TopicNameEmpty))
    else if |w.topics| >= MAX_TOPICS_LIMIT then Outcome(w, Some(MaxTopicsReached))
    else if topic in w.topics then Outcome(w, Some(TopicAlreadyExists))
    else Outcome(w.(topics := w.topics[topic := TopicState({}, 0)]), None)
  }

  function DeleteTopic(w: World, topic: Name): Outcome {
    if topic !in w.topics then Outcome(w, Some(TopicNotFound))
    else
      var listed := w.topics[topic].subscribers;
      var clients := map c | c in w.clients :: if c in listed then Evict(w.clients[c], topic) else w.clients[c];
      Outcome(w.(topics := w.topics - {topic}, clients := clients), None)
  }

  function FanOut(clients: map<ClientId, ClientState>, listed: set<ClientId>, frame: ServerMessage)
    : map<ClientId, ClientState>
  {
    map c | c in clients :: if c in listed then Give(clients[c], frame) else clients[c]
  }

  function PublishMessage(w: World, topic: Name, message: Message, push: Reply, trim: Reply): Outcome {
    if topic !in w.topics then Outcome(w, Some(TopicNotFound))
    else
      var saved := Save(w.lists, topic, message, push, trim);
      if !saved.ok then Outcome(w.(lists := saved.lists), Some(PersistFailed))
      else
        var t := w.topics[topic];
        Outcome(World(
                  w.topics[topic := t.(count := t.count + 1)],
                  FanOut(w.clients, t.subscribers, Delivery(topic, message)),
                  saved.lists), None)
  }

  function SubscribeToTopic(w: World, topic: Name, c: ClientId): Outcome
    requires c in w.clients
  {
    if topic !in w.topics then Outcome(w, Some(TopicNotFound))
    else
      var t := w.topics[topic];
      if c in t.subscribers then Outcome(w, None)
      else if |t.subscribers| >= MAX_SUBSCRIBERS_PER_TOPIC then Outcome(w, Some(MaxSubscribers))
      else
        var client := w.clients[c];
        Outcome(w.(topics := w.topics[topic := t.(subscribers := t.subscribers + {c})],
                   clients := w.clients[c := client.(topics := client.topics + {topic})]), None)
  }

  function UnsubscribeFromTopic(w: World, topic: Name, c: ClientId): Outcome
    requires c in w.clients
  {
    if topic !in w.topics then Outcome(w, Some(TopicNotFound))
    else
      var t := w.topics[topic];
      if c !in t.subscribers then Outcome(w, None)
      else
        var client := w.clients[c];
        Outcome(w.(topics := w.topics[topic := t.(subscribers := t.subscribers - {c})],
                   clients := w.clients[c := client.(topics := client.topics - {topic})]), None)
  }

  function Send(w: World, c: ClientId, frame: ServerMessage): World
    requires c in w.clients
  {
    w.(clients := w.clients[c := Give(w.clients[c], frame)])
  }

  function SendAll(w: World, c: ClientId, frames: seq<ServerMessage>): World
    requires c in w.clients
  {
    w.(clients := w.clients[c := GiveAll(w.clients[c], frames)])
  }

  /** One frame a round of the replay loop. */
  function Rounds(topic: Name, messages: seq<Message>): (frames: seq<ServerMessage>)
    ensures |frames| == |messages|
    ensures forall i :: 0 <= i < |frames| ==> frames[i] == Replayed(topic, messages, i)
  {
    seq(|messages|, i requires 0 <= i < |messages| => Replayed(topic, messages, i))
  }

  /** The frames a subscribe request replays: nothing for a non-positive count or a failed fetch. */
  function ReplayFrames(lists: Lists, topic: Name, lastN: int, range: Reply): seq<ServerMessage> {
    if lastN <= 0 then []
    else
      match Fetch(lists, topic, lastN, range)
      case Some(messages) => Rounds(topic, messages)
      case None => []
  }

  function HandleSubscribe(w: World, c: ClientId, request: ClientMessage, replies: StorageReplies): World
    requires c in w.clients
  {
    var topic, id := request.topicName, request.requestId;
    if topic == EMPTY_NAME then Send(w, c, Error(id, INVALID_MESSAGE, TopicNameRequired))
    else if topic !in w.topics then Send(w, c, Error(id, TOPIC_NOT_FOUND, TopicDoesNotExist))
    else
      var outcome := SubscribeToTopic(w, topic, c);
      if outcome.error.Some? then Send(outcome.world, c, Error(id, INTERNAL_ERROR, FromBroker(outcome.error.value)))
      else
        var frames := ReplayFrames(w.lists, topic, request.lastNMessages, replies.range);
        Send(SendAll(outcome.world, c, frames), c, Ack(id, topic, Subscribed))
  }

  function HandleUnsubscribe(w: World, c: ClientId, request: ClientMessage): World
    requires c in w.clients
  {
    var topic, id := request.topicName, request.requestId;
    if topic == EMPTY_NAME then Send(w, c, Error(id, INVALID_MESSAGE, TopicNameRequired))
    else
      var outcome := UnsubscribeFromTopic(w, topic, c);
      if outcome.error.Some? then Send(outcome.world, c, Error(id, INTERNAL_ERROR, FromBroker(outcome.error.value)))
      else Send(outcome.world, c, Ack(id, topic, Unsubscribed))
  }

  /** `freshId` stands for the generated identifier, used when the client gave none. */
  function StampedMessage(data: Message, freshId: string): Message {
    Message(if data.id == "" then freshId else data.id, data.payload)
  }

  function HandlePublish(w: World, c: ClientId, request: ClientMessage, freshId: string, replies: StorageReplies): World
    requires c in w.clients
  {
    var topic, id := request.topicName, request.requestId;
    if topic == EMPTY_NAME then Send(w, c, Error(id, INVALID_MESSAGE, TopicNameRequired))
    else if request.messageData.None? then Send(w, c, Error(id, INVALID_MESSAGE, MessageRequired))
    else
      var message := StampedMessage(request.messageData.value, freshId);
      var outcome := PublishMessage(w, topic, message, replies.push, replies.trim);
      if outcome.error.Some? then Send(outcome.world, c, Error(id, INTERNAL_ERROR, FromBroker(outcome.error.value)))
      else Send(outcome.world, c, Ack(id, topic, Published))
  }

  function HandleClientMessage(w: World, c: ClientId, request: ClientMessage, freshId: string, replies: StorageReplies)
    : World
    requires c in w.clients
  {
    match request.messageType
    case Subscribe => HandleSubscribe(w, c, request, replies)
    case Unsubscribe => HandleUnsubscribe(w, c, request)
    case Publish => HandlePublish(w, c, request, freshId, replies)
    case Ping => Send(w, c, Pong(request.requestId))
    case Other => Send(w, c, Error(request.requestId, INVALID_MESSAGE, UnknownMessageType))
  }

  /** The topics among `names` that list the client. */
  function ListingIn(w: World, c: ClientId, names: set<Name>): set<Name> {
    set n | n in names && n in w.topics && c in w.topics[n].subscribers
  }

  /** Taken off every topic of `names`; the order in which the names are visited does not show. */
  function RemoveFromTopics(w: World, c: ClientId, names: set<Name>): World
    requires c in w.clients
  {
    w.(topics := map n | n in w.topics ::
                   if n in names then w.topics[n].(subscribers := w.topics[n].subscribers - {c}) else w.topics[n],
       clients := w.clients[c := w.clients[c].(topics := w.clients[c].topics - ListingIn(w, c, names))])
  }

  function Close(w: World, c: ClientId): World
    requires c in w.clients
  {
    w.(clients := w.clients[c := w.clients[c].(box := CloseBox(w.clients[c].box))])
  }

  function CleanupSubscriber(w: World, c: ClientId): World
    requires c in w.clients
  {
    Close(RemoveFromTopics(w, c, w.clients[c].topics), c)
  }

  /** A request as it arrives, with what its handling draws from outside. */
  datatype Incoming = Incoming(request: ClientMessage, freshId: string, replies: StorageReplies)

  function HandleAll(w: World, c: ClientId, incoming: seq<Incoming>): (after: World)
    requires c in w.clients
    ensures c in after.clients
  {
    if incoming == [] then w
    else
      var last := incoming[|incoming| - 1];
      HandleClientMessage(HandleAll(w, c, incoming[..|incoming| - 1]), c, last.request, last.freshId, last.replies)
  }

  lemma RemoveOneMore(w: World, c: ClientId, done: set<Name>, n: Name)
    requires c in w.clients && n !in done
    ensures UnsubscribeFromTopic(RemoveFromTopics(w, c, done), n, c).world == RemoveFromTopics(w, c, done + {n})
  {
    var before, after := RemoveFromTopics(w, c, done), RemoveFromTopics(w, c, done + {n});
    var step := UnsubscribeFromTopic(before, n, c).world;
    var more := if n in w.topics && c in w.topics[n].subscribers then {n} else {};
    assert ListingIn(w, c, done + {n}) == ListingIn(w, c, done) + more;
    assert n in w.topics && c !in w.topics[n].subscribers ==> w.topics[n].subscribers - {c} == w.topics[n].subscribers;
    assert forall m :: m in w.topics ==> step.topics[m] == after.topics[m];
    assert step.topics == after.topics;
    assert step.clients[c].topics == after.clients[c].topics;
    assert step.clients == after.clients;
  }

  lemma RemoveNone(w: World, c: ClientId)
    requires c in w.clients
    ensures RemoveFromTopics(w, c, {}) == w
  {
    var after := RemoveFromTopics(w, c, {});
    assert after.topics == w.topics;
    assert after.clients[c].topics == w.clients[c].topics;
    assert after.clients == w.clients;
  }

  function Lists(w: World): map<Name, set<ClientId>> {
    map n | n in w.topics :: w.topics[n].subscribers
  }

  /** The clients the topics list, as pairs: what every subscriber total counts. */
  ghost function Pairs(w: World): set<(Name, ClientId)> {
    PairsIn(Lists(w), w.topics.Keys)
  }
}
