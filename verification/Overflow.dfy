/** What overflowing a subscriber's queue does to its subscriptions: nothing, until its own cleanup. */
module Overflow {
  import opened Model
  import opened Mailbox
  import opened ReplayLog
  import opened FlatBroker
  import opened Runs
  import opened ClientView

  /** However its fan-out ends for each subscriber, a publish leaves every topic's list and every client's set as they were. */
  lemma FanOutKeepsListings(w: World, n: Name, message: Message, push: Reply, trim: Reply)
    ensures SameRelation(w, PublishMessage(w, n, message, push, trim).world)
  {}

  /** A client is off every topic exactly if its own set is empty: the set its cleanup goes through. */
  lemma UnlistedIffNoTopics(s: State, c: ClientId)
    requires Reachable(s) && c in s.world.clients
    ensures (forall n :: n in s.world.topics ==> c !in s.world.topics[n].subscribers) <==> s.world.clients[c].topics == {}
  {
    ReachableInv(s);
    var w := s.world;
    if w.clients[c].topics != {} {
      var n :| n in w.clients[c].topics;
      assert n in w.topics && c in w.topics[n].subscribers;
    }
  }

  // ---------------------------------------------------------------- a client closed and still listed

  lemma {:induction false} ContinueFirst(s: State, e: Event, rest: seq<Event>)
    ensures Continue(s, [e] + rest) == Continue(Step(s, e), rest)
  {
    if rest == [] {
      assert [e] + rest == [e] && [e][..0] == [];
    } else {
      ContinueFirst(s, e, rest[..|rest| - 1]);
      assert ([e] + rest)[..|[e] + rest| - 1] == [e] + rest[..|rest| - 1];
    }
  }

  lemma {:induction false} RunContinues(events: seq<Event>, later: seq<Event>)
    ensures Run(events + later) == Continue(Run(events), later)
  {
    if later == [] {
      assert events + later == events;
    } else {
      RunContinues(events, later[..|later| - 1]);
      assert (events + later)[..|events + later| - 1] == events + later[..|later| - 1];
    }
  }

  lemma ReachableOn(s: State, later: seq<Event>)
    requires Reachable(s)
    ensures Reachable(Continue(s, later))
  {
    var events :| Run(events) == s;
    RunContinues(events, later);
  }

  lemma ReachableStep(s: State, e: Event)
    requires Reachable(s)
    ensures Reachable(Step(s, e))
  {
    var events :| Run(events) == s;
    assert (events + [e])[..|events|] == events;
    assert Run(events + [e]) == Step(s, e);
  }

  /** Topic `n` lists `c`, and another client is there to publish to it. */
  ghost predicate Listens(s: State, c: ClientId, d: ClientId, n: Name) {
    && n != EMPTY_NAME && n in s.world.topics && c in s.world.topics[n].subscribers
    && Serving(s, c) && Serving(s, d) && d != c
  }

  function Publishing(n: Name, m: Message): Incoming {
    Incoming(ClientMessage(Publish, n, 0, "", Some(m)), "id", StorageReplies(Applied, Applied, Applied))
  }

  lemma PublishReaches(s: State, c: ClientId, d: ClientId, n: Name, m: Message)
    requires Inv(s) && Listens(s, c, d, n)
    ensures var after := Step(s, Requested(d, Publishing(n, m)));
            && Inv(after) && Listens(after, c, d, n)
            && after.world.clients[c].box == Offer(s.world.clients[c].box, Delivery(n, StampedMessage(m, "id")))
  {
    var w, r := s.world, Publishing(n, m).request;
    StepInv(s, Requested(d, Publishing(n, m)));
    SavedFanOut(w, c, r);
    PublishedClient(w, d, r, "id", StorageReplies(Applied, Applied, Applied), c);
    PublishedClient(w, d, r, "id", StorageReplies(Applied, Applied, Applied), d);
    PublishedTopics(w, d, r);
  }

  lemma SavedFanOut(w: World, c: ClientId, r: ClientMessage)
    requires r.topicName != EMPTY_NAME && r.topicName in w.topics && c in w.topics[r.topicName].subscribers && r.messageData.Some?
    ensures PublishFanOut(w, c, r, "id", StorageReplies(Applied, Applied, Applied))
            == [Delivery(r.topicName, StampedMessage(r.messageData.value, "id"))]
  {}

  lemma PublishedTopics(w: World, d: ClientId, r: ClientMessage)
    requires d in w.clients
    ensures var after := HandlePublish(w, d, r, "id", StorageReplies(Applied, Applied, Applied));
            && after.topics.Keys == w.topics.Keys
            && forall n :: n in w.topics ==> after.topics[n].subscribers == w.topics[n].subscribers
  {}

  /** Publish after publish with no write in between fills the queue; the next one closes the subscriber, which stays listed. */
  lemma {:induction false} Flood(s: State, c: ClientId, d: ClientId, n: Name, m: Message) returns (later: seq<Event>)
    requires Inv(s) && Listens(s, c, d, n) && !s.world.clients[c].box.closed && s.world.clients[c].box.up
    ensures var after := Continue(s, later);
            && Listens(after, c, d, n)
            && after.world.clients[c].box.closed && Noticed(after.world.clients[c].box)
    decreases SUBSCRIBER_QUEUE_SIZE - |s.world.clients[c].box.queue|
  {
    var box, e := s.world.clients[c].box, Requested(d, Publishing(n, m));
    PublishReaches(s, c, d, n, m);
    if HasRoom(box) {
      var rest := Flood(Step(s, e), c, d, n, m);
      later := [e] + rest;
      ContinueFirst(s, e, rest);
    } else {
      later := [e] + [];
      ContinueFirst(s, e, []);
    }
  }

  function Subscribing(n: Name, k: int): Incoming {
    Incoming(ClientMessage(Subscribe, n, k, "", None), "id", StorageReplies(Applied, Applied, Applied))
  }

  /** Closed by the slow-consumer policy, with its cleanup still to come. */
  ghost predicate OverflowedAndListed(s: State, c: ClientId, n: Name) {
    && c in s.world.clients && c !in s.left && s.world.clients[c].box.closed && Noticed(s.world.clients[c].box)
    && n in s.world.topics && c in s.world.topics[n].subscribers
  }

  lemma Joined(n: Name) returns (s: State)
    requires n != EMPTY_NAME
    ensures Reachable(s) && Listens(s, 1, 2, n) && !s.world.clients[1].box.closed && s.world.clients[1].box.up
  {
    var created := TopicAndTwo(n);
    s := Step(created, Requested(1, Subscribing(n, 0)));
    ReachableStep(created, Requested(1, Subscribing(n, 0)));
    FirstSubscribes(created, n);
  }

  lemma TopicAndTwo(n: Name) returns (s: State)
    requires n != EMPTY_NAME
    ensures Reachable(s) && s.left == {} && s.asked.Keys == {1, 2}
    ensures s.world == World(map[n := TopicState({}, 0)], map[1 := NewClient(), 2 := NewClient()], map[])
  {
    assert Run([]) == START;
    var one := Step(START, Connected(1));
    ReachableStep(START, Connected(1));
    var two := Step(one, Connected(2));
    ReachableStep(one, Connected(2));
    s := Step(two, TopicCreated(n));
    ReachableStep(two, TopicCreated(n));
  }

  lemma FirstSubscribes(s: State, n: Name)
    requires n != EMPTY_NAME && s.left == {} && s.asked.Keys == {1, 2}
    requires s.world == World(map[n := TopicState({}, 0)], map[1 := NewClient(), 2 := NewClient()], map[])
    ensures var after := Step(s, Requested(1, Subscribing(n, 0)));
            Listens(after, 1, 2, n) && !after.world.clients[1].box.closed && after.world.clients[1].box.up
  {
    assert ReplayFrames(s.world.lists, n, 0, Applied) == [];
  }

  /** The overflow closes the subscriber and nothing more: such a state is reached under every topic name. */
  lemma OverflowLeavesListed(n: Name)
    requires n != EMPTY_NAME
    ensures exists s :: Reachable(s) && OverflowedAndListed(s, 1, n)
  {
    var s := Joined(n);
    ReachableInv(s);
    var later := Flood(s, 1, 2, n, Message("m", ""));
    ReachableOn(s, later);
    assert OverflowedAndListed(Continue(s, later), 1, n);
  }
}
