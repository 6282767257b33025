/**
 Where messages come from, over runs of whole requests: what any client is offered was stored before, a topic counts no
 more messages than were stored, and every message has an identifier.
 */
module Provenance {
  import opened Model
  import opened Mailbox
  import opened ReplayLog
  import opened FlatBroker
  import opened Runs
  import opened ClientView
  import opened Answers

  /** The messages of the frame, one or a whole replay, were pushed for its topic. */
  ghost predicate WasPushed(s: State, f: ServerMessage) {
    && (f.Delivery? ==> f.message in PushedFor(s, f.topic))
    && (f.Replayed? ==> forall m :: m in f.replay ==> m in PushedFor(s, f.topic))
  }

  lemma PushedGrows(s: State, e: Event, n: Name)
    ensures Prefix(PushedFor(s, n), PushedFor(Step(s, e), n))
  {}

  lemma StaysPushed(s: State, e: Event, f: ServerMessage)
    requires WasPushed(s, f)
    ensures WasPushed(Step(s, e), f)
  {
    if IsMessage(f) {
      PushedGrows(s, e, f.topic);
    }
  }

  // ---------------------------------------------------------------- what an event offers

  lemma SubscribeFrameFrom(s: State, d: ClientId, incoming: Incoming, c: ClientId, f: ServerMessage)
    requires Reachable(s) && Serving(s, d) && incoming.request.messageType == MessageType.Subscribe
    requires f in OfferedTo(Step(s, Requested(d, incoming)), c)
    ensures f in OfferedTo(s, c) || WasPushed(s, f)
  {
    var n := incoming.request.topicName;
    if !Admits(s, n, d) {
      SubscribeRefusedWithReason(s, d, incoming);
    } else if incoming.request.lastNMessages <= 0 || !incoming.replies.range.Applied? {
      NoReplayUnlessAskedAndFetched(s, d, incoming);
    } else {
      SubscribeLists(s, d, incoming);
      AdmitsIsSubscribes(s, n, d, incoming.request);
      SubscribeReplaysHistory(s, d, incoming);
      RoundsWerePushed(s, n, incoming.request.lastNMessages, f);
    }
  }

  lemma RoundsWerePushed(s: State, n: Name, k: nat, f: ServerMessage)
    ensures f in Rounds(n, Owed(s, n, k)) ==> WasPushed(s, f)
  {}

  lemma PublishFrameFrom(s: State, d: ClientId, incoming: Incoming, c: ClientId, f: ServerMessage)
    requires Reachable(s) && Serving(s, d) && incoming.request.messageType == MessageType.Publish
    requires f in OfferedTo(Step(s, Requested(d, incoming)), c)
    ensures f in OfferedTo(s, c) || WasPushed(Step(s, Requested(d, incoming)), f)
  {
    if Publishable(s, incoming.request) {
      var m := PublishTakesEffect(s, d, incoming);
      PublishedFrames(s, Step(s, Requested(d, incoming)), d, incoming, m, c, f);
    } else {
      PublishRefusedWithReason(s, d, incoming);
    }
  }

  lemma PublishedFrames(s: State, after: State, d: ClientId, incoming: Incoming, m: Message, c: ClientId, f: ServerMessage)
    requires var n := incoming.request.topicName;
             && PushedFor(after, n) == PushedFor(s, n) + (if !incoming.replies.push.Refused? then [m] else [])
             && f in OfferedTo(s, c) + if c in s.world.clients
                                       then PublishFrames(s, d, n, m, incoming.request.requestId, SaveSucceeds(incoming.replies), c)
                                       else []
    ensures f in OfferedTo(s, c) || WasPushed(after, f)
  {}

  lemma OtherFrameFrom(s: State, d: ClientId, incoming: Incoming, c: ClientId, f: ServerMessage)
    requires Reachable(s) && Serving(s, d)
    requires incoming.request.messageType != MessageType.Publish && incoming.request.messageType != MessageType.Subscribe
    requires f in OfferedTo(Step(s, Requested(d, incoming)), c)
    ensures f in OfferedTo(s, c) || !IsMessage(f)
  {
    var r := incoming.request;
    if r.messageType == MessageType.Unsubscribe && r.topicName != EMPTY_NAME && r.topicName in s.world.topics {
      UnsubscribeUnlists(s, d, incoming);
    } else {
      AnsweredOnly(s, d, incoming);
    }
  }

  lemma QuietFrameFrom(s: State, e: Event, c: ClientId, f: ServerMessage)
    requires Reachable(s) && !e.Requested? && f in OfferedTo(Step(s, e), c)
    ensures f in OfferedTo(s, c) || !IsMessage(f)
  {
    ReachableInv(s);
    if e.TopicRemoved? {
      DeletionFrames(s, e.topic, c);
    } else {
      QuietFrames(s, e, c);
    }
  }

  lemma DeletionFrames(s: State, n: Name, c: ClientId)
    requires Reachable(s)
    ensures var now := OfferedTo(Step(s, TopicRemoved(n)), c);
            now == OfferedTo(s, c) || now == OfferedTo(s, c) + [TopicDeleted(n)]
  {
    if n in s.world.topics {
      DeletionTellsTheListed(s, n);
    } else {
      DeletionOfNothing(s, n);
    }
  }

  lemma QuietFrames(s: State, e: Event, c: ClientId)
    requires Inv(s) && !e.Requested? && !e.TopicRemoved?
    ensures OfferedTo(Step(s, e), c) == OfferedTo(s, c)
  {
    if c !in s.world.clients {
      NewClientIsEmpty(s, e, c);
    } else if MovesBox(e, c) {
      MovedWrites(s, e, c);
    } else {
      QuietEvent(s, e, c);
    }
  }

  lemma NewClientIsEmpty(s: State, e: Event, c: ClientId)
    requires Inv(s) && c !in s.world.clients && !e.Requested?
    ensures OfferedTo(Step(s, e), c) == []
  {}

  lemma RequestOfNobody(s: State, d: ClientId, incoming: Incoming)
    requires Inv(s) && !Serving(s, d)
    ensures Step(s, Requested(d, incoming)) == s
  {}

  /** A message newly offered by an event has been pushed by the time the event is over. */
  lemma FrameFrom(s: State, e: Event, c: ClientId, f: ServerMessage)
    requires Reachable(s) && f in OfferedTo(Step(s, e), c)
    ensures f in OfferedTo(s, c) || WasPushed(Step(s, e), f)
  {
    match e
    case Requested(d, incoming) =>
      if !Serving(s, d) {
        ReachableInv(s);
        RequestOfNobody(s, d, incoming);
      } else if incoming.request.messageType == MessageType.Subscribe {
        SubscribeFrameFrom(s, d, incoming, c, f);
        if f !in OfferedTo(s, c) {
          StaysPushed(s, e, f);
        }
      } else if incoming.request.messageType == MessageType.Publish {
        PublishFrameFrom(s, d, incoming, c, f);
      } else {
        OtherFrameFrom(s, d, incoming, c, f);
      }
    case _ => QuietFrameFrom(s, e, c, f);
  }

  // ---------------------------------------------------------------- counts

  lemma CountFrom(s: State, e: Event, n: Name)
    requires Reachable(s)
    ensures || CountAt(Step(s, e), n) <= CountAt(s, n)
            || (CountAt(Step(s, e), n) == CountAt(s, n) + 1 && |PushedFor(Step(s, e), n)| > |PushedFor(s, n)|)
  {
    ReachableInv(s);
    match e
    case Requested(d, incoming) =>
      if !Serving(s, d) {
        RequestOfNobody(s, d, incoming);
      } else {
        RequestCount(s, d, incoming, n);
      }
    case Disconnected(c) => if Serving(s, c) { CleanupLeavesAll(s, c); }
    case _ => QuietCount(s, e, n);
  }

  lemma RequestCount(s: State, d: ClientId, incoming: Incoming, n: Name)
    requires Reachable(s) && Serving(s, d)
    ensures var after := Step(s, Requested(d, incoming));
            || CountAt(after, n) <= CountAt(s, n)
            || (CountAt(after, n) == CountAt(s, n) + 1 && |PushedFor(after, n)| > |PushedFor(s, n)|)
  {
    var r := incoming.request;
    match r.messageType
    case Subscribe =>
      if Admits(s, r.topicName, d) { SubscribeLists(s, d, incoming); } else { SubscribeRefusedWithReason(s, d, incoming); }
    case Publish =>
      if Publishable(s, r) { var m := PublishTakesEffect(s, d, incoming); } else { PublishRefusedWithReason(s, d, incoming); }
    case Unsubscribe =>
      if r.topicName != EMPTY_NAME && r.topicName in s.world.topics { UnsubscribeUnlists(s, d, incoming); }
      else { AnsweredOnly(s, d, incoming); }
    case Ping => AnsweredOnly(s, d, incoming);
    case Other => AnsweredOnly(s, d, incoming);
  }

  lemma QuietCount(s: State, e: Event, n: Name)
    requires !e.Requested? && !e.Disconnected?
    ensures CountAt(Step(s, e), n) <= CountAt(s, n)
  {}

  // ---------------------------------------------------------------- every run

  ghost predicate Stored(s: State) {
    && (forall c, f :: f in OfferedTo(s, c) ==> WasPushed(s, f))
    && forall n :: CountAt(s, n) <= |PushedFor(s, n)|
  }

  lemma StoredStep(s: State, e: Event)
    requires Reachable(s) && Stored(s)
    ensures Stored(Step(s, e))
  {
    var after := Step(s, e);
    forall c, f | f in OfferedTo(after, c) ensures WasPushed(after, f) {
      FrameFrom(s, e, c, f);
      if f in OfferedTo(s, c) {
        StaysPushed(s, e, f);
      }
    }
    forall n ensures CountAt(after, n) <= |PushedFor(after, n)| {
      CountFrom(s, e, n);
      PushedGrows(s, e, n);
    }
  }

  lemma {:induction false} RunStored(events: seq<Event>)
    ensures Stored(Run(events))
  {
    if events != [] {
      RunStored(events[..|events| - 1]);
      StoredStep(Run(events[..|events| - 1]), events[|events| - 1]);
    }
  }

  /**
   Persist before deliver, on the broker: every message a client was ever offered, by fan-out or replay, was pushed to
   the list of its own topic, and no topic has counted more messages than were pushed for its name.
   */
  lemma OfferedWasPushed(s: State, c: ClientId, f: ServerMessage, n: Name)
    requires Reachable(s)
    ensures f in OfferedTo(s, c) ==> WasPushed(s, f)
    ensures CountAt(s, n) <= |PushedFor(s, n)|
  {
    var events :| Run(events) == s;
    RunStored(events);
  }

  // ---------------------------------------------------------------- identifiers

  /** The identifiers generated in this run are not empty. */
  predicate Generates(events: seq<Event>) {
    forall e :: e in events && e.Requested? ==> e.incoming.freshId != ""
  }

  ghost predicate Identified(s: State) {
    forall n, m :: m in PushedFor(s, n) ==> m.id != ""
  }

  lemma PushedFrom(s: State, e: Event, n: Name, m: Message)
    requires Reachable(s) && m in PushedFor(Step(s, e), n)
    ensures || m in PushedFor(s, n)
            || (e.Requested? && e.incoming.request.messageData.Some?
                && IsPublished(m, e.incoming.request.messageData.value, e.incoming.freshId))
  {
    ReachableInv(s);
    if m in PushedFor(s, n) {
    } else if e.Requested? && Serving(s, e.c) && e.incoming.request.messageType == MessageType.Publish {
      PublishPushes(s, e.c, e.incoming, n, m);
    } else {
      OnlyPublishPushes(s, e, n);
    }
  }

  lemma PublishPushes(s: State, d: ClientId, incoming: Incoming, n: Name, m: Message)
    requires Reachable(s) && Serving(s, d) && incoming.request.messageType == MessageType.Publish
    requires m in PushedFor(Step(s, Requested(d, incoming)), n) && m !in PushedFor(s, n)
    ensures incoming.request.messageData.Some? && IsPublished(m, incoming.request.messageData.value, incoming.freshId)
  {
    if Publishable(s, incoming.request) {
      var p := PublishTakesEffect(s, d, incoming);
      assert m in PushedFor(s, n) + [p];
    } else {
      PublishRefusedWithReason(s, d, incoming);
    }
  }

  lemma OnlyPublishPushes(s: State, e: Event, n: Name)
    requires Inv(s) && !(e.Requested? && Serving(s, e.c) && e.incoming.request.messageType == MessageType.Publish)
    ensures PushedFor(Step(s, e), n) == PushedFor(s, n)
  {}

  lemma {:induction false} RunIdentified(events: seq<Event>)
    requires Generates(events)
    ensures Identified(Run(events))
  {
    if events != [] {
      var before, e := events[..|events| - 1], events[|events| - 1];
      RunIdentified(before);
      forall n, m | m in PushedFor(Run(events), n) ensures m.id != "" {
        PushedFrom(Run(before), e, n, m);
        assert e in events;
      }
    }
  }

  /** With generated identifiers that are not empty, no message is stored, listed or offered without an identifier. */
  lemma EveryMessageHasAnId(events: seq<Event>, n: Name, m: Message)
    requires Generates(events)
    ensures m in PushedFor(Run(events), n) ==> m.id != ""
    ensures m in ListOf(Run(events).world.lists, n) ==> m.id != ""
    ensures forall c :: Delivery(n, m) in OfferedTo(Run(events), c) ==> m.id != ""
    ensures forall c, replay, k :: Replayed(n, replay, k) in OfferedTo(Run(events), c) && m in replay ==> m.id != ""
  {
    RunIdentified(events);
    RunStored(events);
    RunInv(events);
    if m in ListOf(Run(events).world.lists, n) {
      ListedWasPushed(Run(events), n, m);
    }
    forall c | Delivery(n, m) in OfferedTo(Run(events), c) ensures m.id != "" {
      assert WasPushed(Run(events), Delivery(n, m));
    }
    forall c, replay, k | Replayed(n, replay, k) in OfferedTo(Run(events), c) && m in replay ensures m.id != "" {
      assert WasPushed(Run(events), Replayed(n, replay, k));
    }
  }

  lemma ListedWasPushed(s: State, n: Name, m: Message)
    requires ListsOk(s) && m in ListOf(s.world.lists, n)
    ensures m in PushedFor(s, n)
  {
    assert Mirrors(ListOf(s.world.lists, n), PushedFor(s, n), ExpiredFor(s, n));
  }
}
