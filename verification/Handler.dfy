/** One connection's requests, from the first to the cleanup (internal/ws/handler.go). */
module Handlers {
  import opened Model
  import opened ReplayLog
  import opened FlatBroker
  import opened Subscribers
  import opened Brokers

  class ConnectionHandler {
    const brokerInstance: Broker

    constructor (brokerInstance: Broker)
      ensures this.brokerInstance == brokerInstance
    {
      this.brokerInstance := brokerInstance;
    }

    ghost predicate Ready(subscriber: Subscriber)
      reads brokerInstance, brokerInstance.shards, brokerInstance.storage, brokerInstance.flat.Values,
            brokerInstance.clients.Values
    {
      && brokerInstance.Valid()
      && subscriber.clientID in brokerInstance.clients
      && brokerInstance.clients[subscriber.clientID] == subscriber
    }

    method SendAck(subscriber: Subscriber, requestID: RequestId, topicName: Name, info: AckInfo)
      requires Ready(subscriber)
      modifies brokerInstance`world, subscriber
      ensures Ready(subscriber)
      ensures brokerInstance.world
              == Send(old(brokerInstance.world), subscriber.clientID, Ack(requestID, topicName, info))
    {
      brokerInstance.Send(subscriber, Ack(requestID, topicName, info));
    }

    method SendError(subscriber: Subscriber, requestID: RequestId, code: ErrorCode, text: ErrorText)
      requires Ready(subscriber)
      modifies brokerInstance`world, subscriber
      ensures Ready(subscriber)
      ensures brokerInstance.world == Send(old(brokerInstance.world), subscriber.clientID, Error(requestID, code, text))
    {
      brokerInstance.Send(subscriber, Error(requestID, code, text));
    }

    method HandlePing(subscriber: Subscriber, request: ClientMessage)
      requires Ready(subscriber)
      modifies brokerInstance`world, subscriber
      ensures Ready(subscriber)
      ensures brokerInstance.world == Send(old(brokerInstance.world), subscriber.clientID, Pong(request.requestId))
    {
      brokerInstance.Send(subscriber, Pong(request.requestId));
    }

    method HandleSubscribe(subscriber: Subscriber, request: ClientMessage, replies: StorageReplies)
      requires Ready(subscriber)
      modifies brokerInstance`world, brokerInstance.flat.Values`subscribers, subscriber
      ensures Ready(subscriber)
      ensures brokerInstance.world
              == FlatBroker.HandleSubscribe(old(brokerInstance.world), subscriber.clientID, request, replies)
    {
      var topicName, requestID := request.topicName, request.requestId;
      if topicName == EMPTY_NAME {
        SendError(subscriber, requestID, INVALID_MESSAGE, TopicNameRequired);
        return;
      }
      var known := brokerInstance.TopicExists(topicName);
      if !known {
        SendError(subscriber, requestID, TOPIC_NOT_FOUND, TopicDoesNotExist);
        return;
      }
      var error := brokerInstance.SubscribeToTopic(topicName, subscriber);
      if error.Some? {
        SendError(subscriber, requestID, INTERNAL_ERROR, FromBroker(error.value));
        return;
      }
      ReplayLast(subscriber, topicName, request.lastNMessages, replies.range);
      SendAck(subscriber, requestID, topicName, Subscribed);
    }

    method ReplayLast(subscriber: Subscriber, topicName: Name, lastNMessages: int, range: Reply)
      requires Ready(subscriber)
      modifies brokerInstance`world, subscriber
      ensures Ready(subscriber)
      ensures brokerInstance.world
              == SendAll(old(brokerInstance.world), subscriber.clientID,
                         ReplayFrames(old(brokerInstance.world.lists), topicName, lastNMessages, range))
    {
      SendNone(brokerInstance.world, subscriber.clientID);
      if lastNMessages > 0 {
        var replayMessages := brokerInstance.GetReplayMessages(topicName, lastNMessages, range);
        if replayMessages.Some? {
          Replay(subscriber, topicName, replayMessages.value);
        }
      }
    }

    method Replay(subscriber: Subscriber, topicName: Name, messages: seq<Message>)
      requires Ready(subscriber)
      modifies brokerInstance`world, subscriber
      ensures Ready(subscriber)
      ensures brokerInstance.world
              == SendAll(old(brokerInstance.world), subscriber.clientID, Rounds(topicName, messages))
    {
      ghost var frames := Rounds(topicName, messages);
      ghost var before, c := brokerInstance.world, subscriber.clientID;
      SendNone(before, c);
      for i := 0 to |messages|
        invariant Ready(subscriber)
        invariant brokerInstance.world == SendAll(before, c, frames[..i])
      {
        SendOneMore(before, c, frames, i);
        brokerInstance.Send(subscriber, Replayed(topicName, messages, i));
      }
      assert frames[..|messages|] == frames;
    }

    method HandleUnsubscribe(subscriber: Subscriber, request: ClientMessage)
      requires Ready(subscriber)
      modifies brokerInstance`world, brokerInstance.flat.Values`subscribers, subscriber
      ensures Ready(subscriber)
      ensures brokerInstance.world
              == FlatBroker.HandleUnsubscribe(old(brokerInstance.world), subscriber.clientID, request)
    {
      var topicName, requestID := request.topicName, request.requestId;
      if topicName == EMPTY_NAME {
        SendError(subscriber, requestID, INVALID_MESSAGE, TopicNameRequired);
        return;
      }
      var error := brokerInstance.UnsubscribeFromTopic(topicName, subscriber.clientID);
      if error.Some? {
        SendError(subscriber, requestID, INTERNAL_ERROR, FromBroker(error.value));
        return;
      }
      SendAck(subscriber, requestID, topicName, Unsubscribed);
    }

    method HandlePublish(subscriber: Subscriber, request: ClientMessage, freshId: string, replies: StorageReplies)
      requires Ready(subscriber)
      modifies brokerInstance`world, brokerInstance.storage`lists, brokerInstance.flat.Values`totalMessageCount,
               brokerInstance.clients.Values
      ensures Ready(subscriber)
      ensures brokerInstance.world
              == FlatBroker.HandlePublish(old(brokerInstance.world), subscriber.clientID, request, freshId, replies)
    {
      var topicName, requestID := request.topicName, request.requestId;
      if topicName == EMPTY_NAME {
        SendError(subscriber, requestID, INVALID_MESSAGE, TopicNameRequired);
        return;
      }
      if request.messageData.None? {
        SendError(subscriber, requestID, INVALID_MESSAGE, MessageRequired);
        return;
      }
      var message := StampedMessage(request.messageData.value, freshId);
      var error := brokerInstance.PublishMessage(topicName, message, replies.push, replies.trim);
      if error.Some? {
        SendError(subscriber, requestID, INTERNAL_ERROR, FromBroker(error.value));
        return;
      }
      SendAck(subscriber, requestID, topicName, Published);
    }

    method HandleClientMessage(subscriber: Subscriber, incoming: Incoming)
      requires Ready(subscriber)
      modifies brokerInstance`world, brokerInstance.storage`lists, brokerInstance.flat.Values,
               brokerInstance.clients.Values
      ensures Ready(subscriber)
      ensures brokerInstance.world
              == FlatBroker.HandleClientMessage(old(brokerInstance.world), subscriber.clientID, incoming.request,
                                                incoming.freshId, incoming.replies)
    {
      var request := incoming.request;
      match request.messageType {
        case Subscribe => HandleSubscribe(subscriber, request, incoming.replies);
        case Unsubscribe => HandleUnsubscribe(subscriber, request);
        case Publish => HandlePublish(subscriber, request, incoming.freshId, incoming.replies);
        case Ping => HandlePing(subscriber, request);
        case Other => SendError(subscriber, request.requestId, INVALID_MESSAGE, UnknownMessageType);
      }
    }

    method CleanupSubscriber(subscriber: Subscriber)
      requires Ready(subscriber)
      modifies brokerInstance`world, brokerInstance.flat.Values`subscribers, subscriber
      ensures Ready(subscriber)
      ensures brokerInstance.world == FlatBroker.CleanupSubscriber(old(brokerInstance.world), subscriber.clientID)
    {
      var subscribedTopics := TopicsOf(subscriber);
      UnsubscribeFromEach(subscriber, subscribedTopics, brokerInstance.world.clients[subscriber.clientID].topics);
      brokerInstance.CloseSubscriber(subscriber);
    }

    method TopicsOf(subscriber: Subscriber) returns (topics: seq<Name>)
      requires Ready(subscriber)
      ensures subscriber.clientID in brokerInstance.world.clients
      ensures forall n :: n in topics <==> n in brokerInstance.world.clients[subscriber.clientID].topics
      ensures forall i, j :: 0 <= i < j < |topics| ==> topics[i] != topics[j]
    {
      topics := subscriber.GetSubscribedTopics();
    }

    method UnsubscribeFromEach(subscriber: Subscriber, topics: seq<Name>, ghost names: set<Name>)
      requires Ready(subscriber)
      requires forall n :: n in topics <==> n in names
      requires forall i, j :: 0 <= i < j < |topics| ==> topics[i] != topics[j]
      modifies brokerInstance`world, brokerInstance.flat.Values`subscribers, subscriber
      ensures Ready(subscriber)
      ensures brokerInstance.world == RemoveFromTopics(old(brokerInstance.world), subscriber.clientID, names)
    {
      ghost var before := brokerInstance.world;
      ghost var done: set<Name> := {};
      RemoveNone(before, subscriber.clientID);
      for i := 0 to |topics|
        invariant Ready(subscriber)
        invariant forall n :: n in done <==> n in topics[..i]
        invariant brokerInstance.world == RemoveFromTopics(before, subscriber.clientID, done)
      {
        UnsubscribeNext(subscriber, topics, i, before, done);
        done := done + {topics[i]};
      }
      assert done == names;
    }

    method UnsubscribeNext(subscriber: Subscriber, topics: seq<Name>, i: nat, ghost before: World, ghost done: set<Name>)
      requires Ready(subscriber) && subscriber.clientID in before.clients
      requires i < |topics| && forall n :: n in done <==> n in topics[..i]
      requires forall j, k :: 0 <= j < k < |topics| ==> topics[j] != topics[k]
      requires brokerInstance.world == RemoveFromTopics(before, subscriber.clientID, done)
      modifies brokerInstance`world, brokerInstance.flat.Values`subscribers, subscriber
      ensures Ready(subscriber)
      ensures brokerInstance.world == RemoveFromTopics(before, subscriber.clientID, done + {topics[i]})
      ensures forall n :: n in done + {topics[i]} <==> n in topics[..i + 1]
    {
      NextTopic(topics, i, done);
      RemoveOneMore(before, subscriber.clientID, done, topics[i]);
      var error := brokerInstance.UnsubscribeFromTopic(topics[i], subscriber.clientID);
    }

    /** Serves the requests in order until reading fails, then cleans up. */
    method HandleConnection(subscriber: Subscriber, incoming: seq<Incoming>)
      requires Ready(subscriber)
      modifies brokerInstance`world, brokerInstance.storage`lists, brokerInstance.flat.Values,
               brokerInstance.clients.Values
      ensures Ready(subscriber)
      ensures brokerInstance.world
              == FlatBroker.CleanupSubscriber(HandleAll(old(brokerInstance.world), subscriber.clientID, incoming),
                                              subscriber.clientID)
    {
      Serve(subscriber, incoming);
      CleanupSubscriber(subscriber);
    }

    method ServeNext(subscriber: Subscriber, incoming: seq<Incoming>, i: nat, ghost before: World)
      requires Ready(subscriber) && i < |incoming| && subscriber.clientID in before.clients
      requires brokerInstance.world == HandleAll(before, subscriber.clientID, incoming[..i])
      modifies brokerInstance`world, brokerInstance.storage`lists, brokerInstance.flat.Values,
               brokerInstance.clients.Values
      ensures Ready(subscriber)
      ensures brokerInstance.world == HandleAll(before, subscriber.clientID, incoming[..i + 1])
    {
      HandleOneMore(before, subscriber.clientID, incoming, i);
      HandleClientMessage(subscriber, incoming[i]);
    }

    /** The read loop. */
    method Serve(subscriber: Subscriber, incoming: seq<Incoming>)
      requires Ready(subscriber)
      modifies brokerInstance`world, brokerInstance.storage`lists, brokerInstance.flat.Values,
               brokerInstance.clients.Values
      ensures Ready(subscriber)
      ensures brokerInstance.world == HandleAll(old(brokerInstance.world), subscriber.clientID, incoming)
    {
      for i := 0 to |incoming|
        invariant Ready(subscriber)
        invariant brokerInstance.world == HandleAll(old(brokerInstance.world), subscriber.clientID, incoming[..i])
      {
        ServeNext(subscriber, incoming, i, old(brokerInstance.world));
      }
      assert incoming[..|incoming|] == incoming;
    }

    method HandleWebSocket(clientID: ClientId, incoming: seq<Incoming>)
      requires brokerInstance.Valid() && clientID !in brokerInstance.clients
      modifies brokerInstance`world, brokerInstance`clients, brokerInstance.storage`lists,
               brokerInstance.flat.Values, brokerInstance.clients.Values
      ensures brokerInstance.Valid()
      ensures brokerInstance.world
              == FlatBroker.CleanupSubscriber(HandleAll(Connect(old(brokerInstance.world), clientID), clientID, incoming),
                                              clientID)
    {
      var subscriber := Accept(clientID);
      HandleConnection(subscriber, incoming);
    }

    method Accept(clientID: ClientId) returns (subscriber: Subscriber)
      requires brokerInstance.Valid() && clientID !in brokerInstance.clients
      modifies brokerInstance`world, brokerInstance`clients
      ensures fresh(subscriber) && subscriber.clientID == clientID && Ready(subscriber)
      ensures brokerInstance.clients == old(brokerInstance.clients)[clientID := subscriber]
      ensures brokerInstance.world == Connect(old(brokerInstance.world), clientID)
    {
      subscriber := new Subscriber(clientID);
      brokerInstance.Connect(subscriber);
    }
  }

  lemma HandleOneMore(w: World, c: ClientId, incoming: seq<Incoming>, i: nat)
    requires c in w.clients && i < |incoming|
    ensures HandleAll(w, c, incoming[..i + 1])
            == FlatBroker.HandleClientMessage(HandleAll(w, c, incoming[..i]), c, incoming[i].request, incoming[i].freshId,
                                              incoming[i].replies)
  {
    assert incoming[..i + 1][..i] == incoming[..i];
  }

  lemma NextTopic(topics: seq<Name>, i: nat, done: set<Name>)
    requires i < |topics| && forall n :: n in done <==> n in topics[..i]
    requires forall j, k :: 0 <= j < k < |topics| ==> topics[j] != topics[k]
    ensures topics[i] !in done && forall n :: n in done + {topics[i]} <==> n in topics[..i + 1]
  {
    assert topics[..i + 1] == topics[..i] + [topics[i]];
  }

  lemma SendNone(w: World, c: ClientId)
    requires c in w.clients
    ensures SendAll(w, c, []) == w
  {
    assert SendAll(w, c, []).clients == w.clients;
  }

  lemma SendOneMore(w: World, c: ClientId, frames: seq<ServerMessage>, i: nat)
    requires c in w.clients && i < |frames|
    ensures SendAll(w, c, frames[..i + 1]) == Send(SendAll(w, c, frames[..i]), c, frames[i])
  {
    assert frames[..i + 1][..i] == frames[..i];
  }
}
