/** A topic object: the clients it lists and its message count (internal/broker/topic.go). */
module Topics {
  import opened Model
  import opened Mailbox
  import opened FlatBroker
  import opened Subscribers

  datatype TopicInfo = TopicInfo(topicName: Name, subscriberCount: nat, messageCount: nat)

  class Topic {
    const topicName: Name
    const maxSubscribersPerTopic: nat
    var subscribers: map<ClientId, Subscriber>
    var totalMessageCount: nat

    /** Each client is listed under its own identifier, so no client is listed twice. */
    ghost predicate Valid()
      reads this
    {
      forall c :: c in subscribers ==> subscribers[c].clientID == c
    }

    ghost function View(): TopicState
      reads this
    {
      TopicState(subscribers.Keys, totalMessageCount)
    }

    constructor (topicName: Name, maxSubscribersPerTopic: nat)
      ensures this.topicName == topicName && this.maxSubscribersPerTopic == maxSubscribersPerTopic
      ensures Valid() && View() == TopicState({}, 0)
    {
      this.topicName, this.maxSubscribersPerTopic := topicName, maxSubscribersPerTopic;
      subscribers, totalMessageCount := map[], 0;
    }

    twostate predicate Same()
      reads this
    {
      subscribers == old(subscribers) && totalMessageCount == old(totalMessageCount)
    }

    /** What adding a subscriber does to the list and to the subscriber's own set of topics. */
    twostate predicate Added(subscriber: Subscriber, new error: Option<BrokerError>)
      reads this, subscriber
    {
      var c, listed, before := subscriber.clientID, old(subscribers), old(subscriber.View());
      && totalMessageCount == old(totalMessageCount)
      && if c in listed then error == None && subscribers == listed && subscriber.View() == before
         else if |listed| >= maxSubscribersPerTopic then
           error == Some(MaxSubscribers) && subscribers == listed && subscriber.View() == before
         else
           && error == None
           && subscribers == listed[c := subscriber]
           && subscriber.View() == before.(topics := before.topics + {topicName})
    }

    method AddSubscriber(subscriber: Subscriber) returns (error: Option<BrokerError>)
      requires Valid()
      modifies this`subscribers, subscriber`subscribedTopics
      ensures Valid() && Added(subscriber, error)
    {
      if subscriber.clientID in subscribers {
        return None;
      }
      if |subscribers| >= maxSubscribersPerTopic {
        return Some(MaxSubscribers);
      }
      subscribers := subscribers[subscriber.clientID := subscriber];
      subscriber.AddTopic(topicName);
      return None;
    }

    /** What removing a client does, when `subscriber` is the object listed for it or it is not listed. */
    twostate predicate Removed(subscriber: Subscriber)
      reads this, subscriber
    {
      var c, listed, before := subscriber.clientID, old(subscribers), old(subscriber.View());
      && totalMessageCount == old(totalMessageCount)
      && subscribers == listed - {c}
      && subscriber.View() == if c in listed then before.(topics := before.topics - {topicName}) else before
    }

    method RemoveSubscriber(clientID: ClientId)
      requires Valid()
      modifies this`subscribers
      modifies (if clientID in subscribers then {subscribers[clientID]} else {})`subscribedTopics
      ensures Valid()
      ensures subscribers == old(subscribers) - {clientID}
      ensures clientID in old(subscribers) ==> Removed(old(subscribers)[clientID])
    {
      if clientID in subscribers {
        var subscriber := subscribers[clientID];
        subscribers := subscribers - {clientID};
        subscriber.RemoveTopic(topicName);
      }
    }

    method GetSubscriberCount() returns (count: nat)
      ensures count == |View().subscribers|
    {
      return |subscribers|;
    }

    method GetTotalMessageCount() returns (count: nat)
      ensures count == View().count
    {
      return totalMessageCount;
    }

    method GetTopicInfo() returns (info: TopicInfo)
      ensures info == TopicInfo(topicName, |View().subscribers|, View().count)
    {
      var subscriberCount := GetSubscriberCount();
      var messageCount := GetTotalMessageCount();
      return TopicInfo(topicName, subscriberCount, messageCount);
    }

    /** The listed subscribers, each once, in no particular order. */
    method Snapshot() returns (list: seq<Subscriber>)
      requires Valid()
      ensures forall i :: 0 <= i < |list| ==> list[i].clientID in subscribers && subscribers[list[i].clientID] == list[i]
      ensures forall c :: c in subscribers ==> subscribers[c] in list
      ensures forall i, j :: 0 <= i < j < |list| ==> list[i] != list[j]
    {
      list := [];
      var remaining := subscribers.Keys;
      while remaining != {}
        invariant remaining <= subscribers.Keys
        invariant forall i :: 0 <= i < |list| ==>
                    && list[i].clientID in subscribers.Keys - remaining
                    && subscribers[list[i].clientID] == list[i]
        invariant forall c :: c in subscribers && c !in remaining ==> subscribers[c] in list
        invariant forall i, j :: 0 <= i < j < |list| ==> list[i] != list[j]
      {
        var c :| c in remaining;
        list := list + [subscribers[c]];
        remaining := remaining - {c};
      }
    }

    /** The listed subscribers that cannot take another frame. */
    ghost function Refusing(): set<Subscriber>
      reads this, subscribers.Values
    {
      set s | s in subscribers.Values && !Accepts(s.BoxView())
    }

    /**
     Whatever order the snapshot comes in, every listed subscriber is offered exactly this message once, no other
     subscriber changes, and the slow consumers are those that could not take it.
     */
    method PublishMessage(message: Message) returns (slowConsumerCount: nat)
      requires Valid()
      modifies this`totalMessageCount, subscribers.Values
      ensures Valid()
      ensures totalMessageCount == old(totalMessageCount) + 1
      ensures forall c :: c in subscribers ==>
                subscribers[c].View() == Give(old(subscribers[c].View()), Delivery(topicName, message))
      ensures slowConsumerCount == |old(Refusing())|
    {
      totalMessageCount := totalMessageCount + 1;
      var subscribersList := Snapshot();
      assert forall s :: s in subscribersList <==> s in subscribers.Values by {
        forall s | s in subscribers.Values ensures s in subscribersList {
          var c :| c in subscribers && subscribers[c] == s;
        }
        forall s | s in subscribersList ensures s in subscribers.Values {
          assert subscribers[s.clientID] == s;
        }
      }
      ghost var refused;
      slowConsumerCount, refused := SendToEach(subscribersList, Delivery(topicName, message));
      assert refused == old(Refusing());
    }

    /** The fan-out loop over a snapshot. */
    static method SendToEach(list: seq<Subscriber>, serverMessage: ServerMessage)
      returns (failures: nat, ghost refused: set<Subscriber>)
      requires forall i, j :: 0 <= i < j < |list| ==> list[i] != list[j]
      modifies list
      ensures forall s :: s in list ==> s.View() == Give(old(s.View()), serverMessage)
      ensures forall s :: s in list ==> (s in refused <==> !Accepts(old(s.BoxView())))
      ensures (forall s :: s in refused ==> s in list) && failures == |refused|
    {
      failures, refused := 0, {};
      for i := 0 to |list|
        invariant forall k :: 0 <= k < i ==> list[k].View() == Give(old(list[k].View()), serverMessage)
        invariant forall k :: i <= k < |list| ==> list[k].View() == old(list[k].View())
        invariant forall s :: s in refused ==> s in list
        invariant forall k :: 0 <= k < |list| ==> (list[k] in refused <==> k < i && !Accepts(old(list[k].BoxView())))
        invariant failures == |refused|
      {
        label sending:
        var success := list[i].SendMessage(serverMessage);
        assert forall k :: 0 <= k < |list| && k != i ==> list[k].View() == old@sending(list[k].View());
        if !success {
          failures := failures + 1;
          refused := refused + {list[i]};
        }
      }
    }

    method CloseAllSubscribers()
      requires Valid()
      modifies this`subscribers, subscribers.Values
      ensures Valid() && subscribers == map[]
      ensures forall c :: c in old(subscribers) ==>
                old(subscribers)[c].View() == Evict(old(subscribers[c].View()), topicName)
    {
      var subscribersList := Snapshot();
      for i := 0 to |subscribersList|
        invariant forall k :: 0 <= k < i ==> subscribersList[k].View() == Evict(old(subscribersList[k].View()), topicName)
        invariant forall k :: i <= k < |subscribersList| ==>
                    subscribersList[k].View() == old(subscribersList[k].View())
      {
        var ok := subscribersList[i].SendMessage(TopicDeleted(topicName));
        subscribersList[i].RemoveTopic(topicName);
      }
      subscribers := map[];
    }

    method GetSubscribersList() returns (clientIDs: seq<ClientId>)
      requires Valid()
      ensures forall c :: c in clientIDs <==> c in View().subscribers
      ensures forall i, j :: 0 <= i < j < |clientIDs| ==> clientIDs[i] != clientIDs[j]
    {
      clientIDs := [];
      var remaining := subscribers.Keys;
      while remaining != {}
        invariant remaining <= subscribers.Keys
        invariant forall c :: c in clientIDs <==> c in subscribers.Keys - remaining
        invariant forall i, j :: 0 <= i < j < |clientIDs| ==> clientIDs[i] != clientIDs[j]
      {
        var c :| c in remaining;
        clientIDs := clientIDs + [c];
        remaining := remaining - {c};
      }
    }
  }
}
