/** What a topic deleted and created again keeps of the old one: its stored list. */
module Recreation {
  import opened Model
  import opened Mailbox
  import opened ReplayLog
  import opened FlatBroker
  import opened Runs
  import opened ClientView
  import opened Overflow

  function Recreate(s: State, n: Name): State {
    Step(Step(s, TopicRemoved(n)), TopicCreated(n))
  }

  lemma RecreatedTopic(s: State, n: Name)
    requires Inv(s) && n != EMPTY_NAME && n in s.world.topics
    ensures var after := Recreate(s, n);
            && Inv(after) && after.world.topics == s.world.topics[n := TopicState({}, 0)]
            && after.world.lists == s.world.lists && after.pushed == s.pushed && after.expired == s.expired
            && after.world.clients.Keys == s.world.clients.Keys && after.left == s.left
  {
    StepInv(s, TopicRemoved(n));
    StepInv(Step(s, TopicRemoved(n)), TopicCreated(n));
    RemovedTopic(s, n);
    CreatedTopic(Step(s, TopicRemoved(n)), n);
    LessOne(s.world.topics, n);
  }

  lemma RemovedTopic(s: State, n: Name)
    requires n in s.world.topics
    ensures var after := Step(s, TopicRemoved(n));
            && after == s.(world := after.world) && after.world.lists == s.world.lists
            && after.world.topics == s.world.topics - {n} && after.world.clients.Keys == s.world.clients.Keys
  {}

  lemma CreatedTopic(s: State, n: Name)
    requires n != EMPTY_NAME && n !in s.world.topics && |s.world.topics| < MAX_TOPICS_LIMIT
    ensures Step(s, TopicCreated(n)) == s.(world := s.world.(topics := s.world.topics[n := TopicState({}, 0)]))
  {}

  lemma LessOne(topics: map<Name, TopicState>, n: Name)
    requires n in topics
    ensures |topics - {n}| == |topics| - 1
    ensures (topics - {n})[n := TopicState({}, 0)] == topics[n := TopicState({}, 0)]
  {
    assert topics == (topics - {n})[n := topics[n]];
  }

  /** A subscribe that asks for a replay gets an empty one if and only if every push for the name was lost to expiry, or there was none. */
  lemma ReplayEmptyIffNothingKept(s: State, c: ClientId, incoming: Incoming)
    requires Reachable(s) && Serving(s, c)
    requires incoming.request.messageType == Subscribe && Subscribes(s.world, c, incoming.request)
    requires 1 <= incoming.request.lastNMessages && incoming.replies.range.Applied?
    ensures var after, r := Step(s, Requested(c, incoming)), incoming.request;
            && c in after.world.clients
            && (after.world.clients[c].box.offered
                == s.world.clients[c].box.offered + [Ack(r.requestId, r.topicName, Subscribed)]
                <==> |PushedFor(s, r.topicName)| == ExpiredFor(s, r.topicName))
  {
    SubscribeReplaysHistory(s, c, incoming);
    ReachableInv(s);
    var n, k := incoming.request.topicName, incoming.request.lastNMessages;
    assert Mirrors(ListOf(s.world.lists, n), PushedFor(s, n), ExpiredFor(s, n));
    SameLengthIff(s.world.clients[c].box.offered, Rounds(n, Owed(s, n, k)), Ack(incoming.request.requestId, n, Subscribed));
  }

  lemma SameLengthIff(before: seq<ServerMessage>, replay: seq<ServerMessage>, ack: ServerMessage)
    ensures before + replay + [ack] == before + [ack] <==> replay == []
  {
    if replay == [] {
      assert before + replay == before;
    } else {
      assert |before + replay + [ack]| > |before + [ack]|;
    }
  }

  /**
   From every reachable state in which some push for the name is kept: delete the topic, create it again, subscribe
   asking for at least one message. The first subscriber of the new topic is replayed messages of the old one, exactly
   what a subscriber of the old one would have been.
   */
  lemma RecreatedTopicReplaysOldMessages(s: State, c: ClientId, n: Name, k: int)
    requires Reachable(s) && Serving(s, c) && n != EMPTY_NAME && n in s.world.topics
    requires k >= 1 && |PushedFor(s, n)| != ExpiredFor(s, n)
    ensures var recreated, after := Recreate(s, n), Step(Recreate(s, n), Requested(c, Subscribing(n, k)));
            && n in recreated.world.topics && recreated.world.topics[n] == TopicState({}, 0)
            && c in recreated.world.clients && c in after.world.clients
            && Owed(s, n, k) != []
            && after.world.clients[c].box.offered
               == recreated.world.clients[c].box.offered + Rounds(n, Owed(s, n, k)) + [Ack("", n, Subscribed)]
  {
    ReachableInv(s);
    RecreatedTopic(s, n);
    RecreatedIsReachable(s, n);
    NewTopicReplays(Recreate(s, n), c, n, k);
    SameOwed(s, Recreate(s, n), n, k);
    OwedKept(s, n, k);
  }

  lemma NewTopicReplays(s: State, c: ClientId, n: Name, k: int)
    requires Reachable(s) && Serving(s, c) && n != EMPTY_NAME && k >= 1
    requires n in s.world.topics && s.world.topics[n] == TopicState({}, 0)
    ensures var after := Step(s, Requested(c, Subscribing(n, k)));
            && c in after.world.clients
            && after.world.clients[c].box.offered
               == s.world.clients[c].box.offered + Rounds(n, Owed(s, n, k)) + [Ack("", n, Subscribed)]
  {
    NewTopicSubscribes(s.world, c, n, k);
    SubscribeReplaysHistory(s, c, Subscribing(n, k));
  }

  lemma NewTopicSubscribes(w: World, c: ClientId, n: Name, k: int)
    requires c in w.clients && n != EMPTY_NAME && n in w.topics && w.topics[n] == TopicState({}, 0)
    ensures Subscribes(w, c, Subscribing(n, k).request)
  {}

  lemma OwedKept(s: State, n: Name, k: int)
    requires ListsOk(s) && k >= 1 && |PushedFor(s, n)| != ExpiredFor(s, n)
    ensures Owed(s, n, k) != []
  {
    assert Mirrors(ListOf(s.world.lists, n), PushedFor(s, n), ExpiredFor(s, n));
  }

  lemma RecreatedIsReachable(s: State, n: Name)
    requires Reachable(s)
    ensures Reachable(Recreate(s, n))
  {
    ReachableStep(s, TopicRemoved(n));
    ReachableStep(Step(s, TopicRemoved(n)), TopicCreated(n));
  }

  lemma SameOwed(s: State, t: State, n: Name, k: nat)
    requires t.world.lists == s.world.lists && t.pushed == s.pushed && t.expired == s.expired
    ensures Owed(t, n, k) == Owed(s, n, k) && KeptFor(t, n) == KeptFor(s, n)
  {}

  lemma PublishedOnce(n: Name, m: Message) returns (s: State)
    requires n != EMPTY_NAME && m.id != ""
    ensures Reachable(s) && Serving(s, 1) && n in s.world.topics && PushedFor(s, n) == [m] && ExpiredFor(s, n) == 0
  {
    assert Run([]) == START;
    var one := Step(START, Connected(1));
    ReachableStep(START, Connected(1));
    var two := Step(one, TopicCreated(n));
    ReachableStep(one, TopicCreated(n));
    s := Step(two, Requested(1, Publishing(n, m)));
    ReachableStep(two, Requested(1, Publishing(n, m)));
  }

  /** It happens: one publish, a deletion, a creation under the same name, and the new topic replays the message. */
  lemma OldMessageIsReplayed(n: Name, m: Message)
    requires n != EMPTY_NAME && m.id != ""
    ensures exists s :: && Reachable(s) && Serving(s, 1) && PushedFor(s, n) == [m]
                        && var after := Step(Recreate(s, n), Requested(1, Subscribing(n, 1)));
                        && 1 in after.world.clients
                        && Replayed(n, [m], 0) in after.world.clients[1].box.offered
  {
    var s := PublishedOnce(n, m);
    RecreatedTopicReplaysOldMessages(s, 1, n, 1);
    ReachableInv(s);
    assert Mirrors(ListOf(s.world.lists, n), PushedFor(s, n), ExpiredFor(s, n));
    assert Owed(s, n, 1) == [m];
    assert Rounds(n, [m])[0] == Replayed(n, [m], 0);
  }
}
