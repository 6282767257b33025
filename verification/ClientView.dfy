/** What one client gets from a run of whole requests: the frames it is offered, and what it reads of them. */
module ClientView {
  import opened Model
  import opened Mailbox
  import opened ReplayLog
  import opened FlatBroker
  import opened Sessions
  import opened Runs

  /** A request of `c` to subscribe to `n`. */
  predicate AsksFor(e: Event, c: ClientId, n: Name) {
    e.Requested? && e.c == c && e.incoming.request.messageType == Subscribe && e.incoming.request.topicName == n
  }

  predicate MovesBox(e: Event, c: ClientId) {
    (e.Took? || e.Wrote? || e.LostLink? || e.Disconnected?) && e.c == c
  }

  /** Every message in `frames` is of a topic the client holds, or of the one it asks for. */
  ghost predicate Due(s: State, e: Event, c: ClientId, frames: seq<ServerMessage>)
    requires c in s.world.clients
  {
    forall f :: f in frames && IsMessage(f) ==> f.topic in s.world.clients[c].topics || AsksFor(e, c, f.topic)
  }

  /** An event offers `frames` to a client, one by one, and does nothing else to its box. */
  ghost predicate Offers(s: State, e: Event, c: ClientId, frames: seq<ServerMessage>)
    requires c in s.world.clients
  {
    && c in Step(s, e).world.clients
    && Step(s, e).world.clients[c].box == OfferAll(s.world.clients[c].box, frames)
    && Due(s, e, c, frames)
    && forall n :: n in Step(s, e).world.clients[c].topics ==> n in s.world.clients[c].topics || AsksFor(e, c, n)
  }

  lemma OfferOne<T>(box: Box<T>, item: T)
    ensures OfferAll(box, [item]) == Offer(box, item)
  {
    assert [item][..0] == [];
  }

  lemma OfferMore<T>(box: Box<T>, items: seq<T>, item: T)
    ensures OfferAll(box, items + [item]) == Offer(OfferAll(box, items), item)
  {
    assert (items + [item])[..|items|] == items;
  }

  lemma Answers(s: State, c: ClientId, incoming: Incoming) returns (frames: seq<ServerMessage>)
    requires Inv(s) && Serving(s, c) && incoming.request.messageType != Publish
    ensures Offers(s, Requested(c, incoming), c, frames)
  {
    var w, r := s.world, incoming.request;
    var e := Requested(c, incoming);
    match r.messageType
    case Subscribe => frames := SubscribeAnswers(s, c, incoming);
    case Unsubscribe => frames := UnsubscribeAnswers(s, c, incoming);
    case Ping =>
      frames := [Pong(r.requestId)];
      OfferOne(w.clients[c].box, frames[0]);
    case Other =>
      frames := [Error(r.requestId, INVALID_MESSAGE, UnknownMessageType)];
      OfferOne(w.clients[c].box, frames[0]);
  }

  lemma SubscribeAnswers(s: State, c: ClientId, incoming: Incoming) returns (frames: seq<ServerMessage>)
    requires Inv(s) && Serving(s, c) && incoming.request.messageType == Subscribe
    ensures Offers(s, Requested(c, incoming), c, frames)
  {
    var w, r := s.world, incoming.request;
    if Subscribes(w, c, r) {
      var replay := ReplayFrames(w.lists, r.topicName, r.lastNMessages, incoming.replies.range);
      SubscribeAnswer(w, c, r, incoming.replies);
      frames := replay + [Ack(r.requestId, r.topicName, Subscribed)];
      OfferMore(w.clients[c].box, replay, Ack(r.requestId, r.topicName, Subscribed));
    } else {
      var frame := SubscribeRefused(w, c, r, incoming.replies);
      frames := [frame];
      OfferOne(w.clients[c].box, frame);
    }
  }

  lemma UnsubscribeAnswers(s: State, c: ClientId, incoming: Incoming) returns (frames: seq<ServerMessage>)
    requires Inv(s) && Serving(s, c) && incoming.request.messageType == Unsubscribe
    ensures Offers(s, Requested(c, incoming), c, frames)
  {
    var w, r := s.world, incoming.request;
    if r.topicName == EMPTY_NAME {
      frames := [Error(r.requestId, INVALID_MESSAGE, TopicNameRequired)];
    } else if r.topicName !in w.topics {
      frames := [Error(r.requestId, INTERNAL_ERROR, FromBroker(TopicNotFound))];
    } else {
      UnsubscribeAnswer(w, c, r);
      frames := [Ack(r.requestId, r.topicName, Unsubscribed)];
    }
    OfferOne(w.clients[c].box, frames[0]);
  }

  /** What a publish by `d` offers to `c`: the message if its topic lists `c`, then the answer if `c` made the request. */
  lemma PublishOffers(s: State, d: ClientId, incoming: Incoming, c: ClientId) returns (frames: seq<ServerMessage>)
    requires Inv(s) && Serving(s, d) && c in s.world.clients && incoming.request.messageType == Publish
    ensures Offers(s, Requested(d, incoming), c, frames)
  {
    var w, r := s.world, incoming.request;
    var fanOut := PublishFanOut(w, c, r, incoming.freshId, incoming.replies);
    var answer := if c == d then [PublishAnswer(w, r, incoming.freshId, incoming.replies)] else [];
    frames := fanOut + answer;
    OfferPair(w.clients[c].box, fanOut, answer);
    PublishedClient(w, d, r, incoming.freshId, incoming.replies, c);
    PublishDue(s, c, d, incoming, frames);
  }

  lemma PublishDue(s: State, c: ClientId, d: ClientId, incoming: Incoming, frames: seq<ServerMessage>)
    requires Inv(s) && c in s.world.clients
    requires frames == PublishFanOut(s.world, c, incoming.request, incoming.freshId, incoming.replies)
                       + if c == d then [PublishAnswer(s.world, incoming.request, incoming.freshId, incoming.replies)] else []
    ensures Due(s, Requested(d, incoming), c, frames)
  {
    FanOutDue(s.world, c, incoming);
  }

  lemma FanOutDue(w: World, c: ClientId, incoming: Incoming)
    requires CrossIndex(w) && c in w.clients
    ensures var r := incoming.request;
            && (forall f :: f in PublishFanOut(w, c, r, incoming.freshId, incoming.replies) ==> f.Delivery? && f.topic in w.clients[c].topics)
            && !IsMessage(PublishAnswer(w, r, incoming.freshId, incoming.replies))
  {}

  function PublishAnswer(w: World, r: ClientMessage, freshId: string, replies: StorageReplies): ServerMessage {
    if r.topicName == EMPTY_NAME then Error(r.requestId, INVALID_MESSAGE, TopicNameRequired)
    else if r.messageData.None? then Error(r.requestId, INVALID_MESSAGE, MessageRequired)
    else
      var message := StampedMessage(r.messageData.value, freshId);
      var outcome := PublishMessage(w, r.topicName, message, replies.push, replies.trim);
      if outcome.error.Some? then Error(r.requestId, INTERNAL_ERROR, FromBroker(outcome.error.value))
      else Ack(r.requestId, r.topicName, Published)
  }

  function PublishFanOut(w: World, c: ClientId, r: ClientMessage, freshId: string, replies: StorageReplies)
    : seq<ServerMessage>
  {
    if PublishAnswer(w, r, freshId, replies).Ack? && r.topicName in w.topics && c in w.topics[r.topicName].subscribers
       && r.messageData.Some?
    then [Delivery(r.topicName, StampedMessage(r.messageData.value, freshId))] else []
  }

  lemma PublishedClient(w: World, d: ClientId, r: ClientMessage, freshId: string, replies: StorageReplies, c: ClientId)
    requires d in w.clients && c in w.clients
    ensures var fanOut, after := PublishFanOut(w, c, r, freshId, replies), HandlePublish(w, d, r, freshId, replies);
            && c in after.clients
            && var box := if fanOut == [] then w.clients[c].box else Offer(w.clients[c].box, fanOut[0]);
            after.clients[c] == ClientState(if c == d then Offer(box, PublishAnswer(w, r, freshId, replies)) else box,
                                            w.clients[c].topics)
  {}

  lemma OfferPair<T>(box: Box<T>, first: seq<T>, second: seq<T>)
    requires |first| <= 1 && |second| <= 1
    ensures OfferAll(box, first) == if first == [] then box else Offer(box, first[0])
    ensures OfferAll(box, first + second)
            == if second == [] then OfferAll(box, first) else Offer(OfferAll(box, first), second[0])
  {
    if first != [] {
      OfferOne(box, first[0]);
      assert first == [first[0]];
    }
    if second != [] {
      OfferMore(box, first, second[0]);
      assert second == [second[0]];
    } else {
      assert first + second == first;
    }
  }

  lemma DeletionOffers(s: State, n: Name, c: ClientId) returns (frames: seq<ServerMessage>)
    requires c in s.world.clients
    ensures Offers(s, TopicRemoved(n), c, frames)
  {
    var w := s.world;
    frames := if n in w.topics && c in w.topics[n].subscribers then [TopicDeleted(n)] else [];
    OfferPair(w.clients[c].box, frames, []);
    assert frames + [] == frames;
  }

  /** Every event but the client's own disconnection and write-loop moves offers it a number of frames due to it. */
  lemma FramesFor(s: State, e: Event, c: ClientId) returns (frames: seq<ServerMessage>)
    requires Inv(s) && c in s.world.clients && !MovesBox(e, c)
    ensures Offers(s, e, c, frames)
  {
    match e
    case TopicRemoved(n) => frames := DeletionOffers(s, n, c);
    case Requested(d, incoming) =>
      if Serving(s, d) && d in s.asked && incoming.request.messageType == Publish {
        frames := PublishOffers(s, d, incoming, c);
      } else if Serving(s, c) && d == c {
        frames := Answers(s, c, incoming);
      } else {
        frames := [];
        OthersUntouched(s, d, incoming, c);
      }
    case _ =>
      frames := [];
      QuietEvent(s, e, c);
  }

  lemma OthersUntouched(s: State, d: ClientId, incoming: Incoming, c: ClientId)
    requires c in s.world.clients && (d != c || !Serving(s, c)) && Inv(s)
    requires !(Serving(s, d) && d in s.asked && incoming.request.messageType == Publish)
    ensures c in Step(s, Requested(d, incoming)).world.clients
    ensures Step(s, Requested(d, incoming)).world.clients[c] == s.world.clients[c]
  {
    if Serving(s, d) {
      OwnRequest(s.world, d, incoming, c);
    }
  }

  lemma OwnRequest(w: World, d: ClientId, incoming: Incoming, c: ClientId)
    requires CrossIndex(w) && c in w.clients && d in w.clients && d != c && incoming.request.messageType != Publish
    ensures var after := HandleClientMessage(w, d, incoming.request, incoming.freshId, incoming.replies);
            c in after.clients && after.clients[c] == w.clients[c]
  {
    var r := incoming.request;
    match r.messageType
    case Subscribe =>
      if Subscribes(w, d, r) {
        SubscribeAnswer(w, d, r, incoming.replies);
      } else {
        var frame := SubscribeRefused(w, d, r, incoming.replies);
      }
    case Unsubscribe =>
      if r.topicName != EMPTY_NAME && r.topicName in w.topics {
        UnsubscribeAnswer(w, d, r);
      }
    case _ =>
  }

  lemma QuietEvent(s: State, e: Event, c: ClientId)
    requires c in s.world.clients && !MovesBox(e, c) && !e.Requested? && !e.TopicRemoved?
    ensures c in Step(s, e).world.clients && Step(s, e).world.clients[c] == s.world.clients[c]
  {}

  // ---------------------------------------------------------------- silence between subscriptions

  /** What was offered and accepted before still was, in the same places, and nothing new is a message of `n`. */
  ghost predicate GainsNone(was: Box<ServerMessage>, now: Box<ServerMessage>, n: Name) {
    && Prefix(was.offered, now.offered) && Prefix(was.accepted, now.accepted)
    && (forall i :: |was.offered| <= i < |now.offered| ==> !IsDelivery(now.offered[i], n))
    && (forall i :: |was.accepted| <= i < |now.accepted| ==> !IsDelivery(now.accepted[i], n))
  }

  lemma GainsNoneOn(first: Box<ServerMessage>, second: Box<ServerMessage>, third: Box<ServerMessage>, n: Name)
    requires GainsNone(first, second, n) && GainsNone(second, third, n)
    ensures GainsNone(first, third, n)
  {}

  lemma {:induction false} OfferAllGainsNone(box: Box<ServerMessage>, frames: seq<ServerMessage>, n: Name)
    requires forall f :: f in frames ==> !IsDelivery(f, n)
    ensures GainsNone(box, OfferAll(box, frames), n)
  {
    if frames != [] {
      var fewer, last := frames[..|frames| - 1], frames[|frames| - 1];
      OfferAllGainsNone(box, fewer, n);
      assert GainsNone(OfferAll(box, fewer), Offer(OfferAll(box, fewer), last), n);
      GainsNoneOn(box, OfferAll(box, fewer), OfferAll(box, frames), n);
    }
  }

  /** The client's own write loop, connection and disconnection offer it nothing. */
  lemma MovedBox(s: State, e: Event, c: ClientId)
    requires Inv(s) && c in s.world.clients && MovesBox(e, c)
    ensures var after, was := Step(s, e), s.world.clients[c];
            && c in after.world.clients
            && after.world.clients[c].topics <= was.topics
            && after.world.clients[c].box == match e
                                             case Took(_) => Take(was.box)
                                             case Wrote(_) => Put(was.box)
                                             case LostLink(_) => LinkDown(was.box)
                                             case _ => if Serving(s, c) then CloseBox(was.box) else was.box
  {
    if e.Disconnected? && Serving(s, c) {
      CleanedUpClient(s.world, c);
    }
  }

  lemma QuietStep(s: State, e: Event, c: ClientId, n: Name)
    requires Inv(s) && c in s.world.clients && n !in s.world.clients[c].topics && !AsksFor(e, c, n)
    ensures var after := Step(s, e);
            && c in after.world.clients && n !in after.world.clients[c].topics
            && GainsNone(s.world.clients[c].box, after.world.clients[c].box, n)
  {
    if MovesBox(e, c) {
      MovedQuietly(s, e, c, n);
    } else {
      OfferedQuietly(s, e, c, n);
    }
  }

  lemma MovedQuietly(s: State, e: Event, c: ClientId, n: Name)
    requires Inv(s) && c in s.world.clients && n !in s.world.clients[c].topics && MovesBox(e, c)
    ensures var after := Step(s, e);
            && c in after.world.clients && n !in after.world.clients[c].topics
            && GainsNone(s.world.clients[c].box, after.world.clients[c].box, n)
  {
    MovedWrites(s, e, c);
    SameGainsNone(s.world.clients[c].box, Step(s, e).world.clients[c].box, n);
  }

  lemma SameGainsNone(was: Box<ServerMessage>, now: Box<ServerMessage>, n: Name)
    requires now.offered == was.offered && now.accepted == was.accepted
    ensures GainsNone(was, now, n)
  {}

  /** The write loop, the connection and a close change neither what was offered nor what was accepted. */
  lemma MovedWrites(s: State, e: Event, c: ClientId)
    requires Inv(s) && c in s.world.clients && MovesBox(e, c)
    ensures var was, after := s.world.clients[c], Step(s, e);
            && c in after.world.clients && after.world.clients[c].topics <= was.topics
            && after.world.clients[c].box.offered == was.box.offered && after.world.clients[c].box.accepted == was.box.accepted
            && (!e.Wrote? ==> Written(after.world.clients[c].box) == Written(was.box))
  {
    MovedBox(s, e, c);
  }

  lemma OfferedQuietly(s: State, e: Event, c: ClientId, n: Name)
    requires Inv(s) && c in s.world.clients && n !in s.world.clients[c].topics && !MovesBox(e, c) && !AsksFor(e, c, n)
    ensures var after := Step(s, e);
            && c in after.world.clients && n !in after.world.clients[c].topics
            && GainsNone(s.world.clients[c].box, after.world.clients[c].box, n)
  {
    var frames := FramesFor(s, e, c);
    OfferAllGainsNone(s.world.clients[c].box, frames, n);
  }

  function Continue(s: State, later: seq<Event>): State {
    if later == [] then s else Step(Continue(s, later[..|later| - 1]), later[|later| - 1])
  }

  lemma {:induction false} ContinueInv(s: State, later: seq<Event>)
    requires Inv(s)
    ensures Inv(Continue(s, later))
  {
    if later != [] {
      ContinueInv(s, later[..|later| - 1]);
      StepInv(Continue(s, later[..|later| - 1]), later[|later| - 1]);
    }
  }

  lemma {:induction false} QuietRun(s: State, later: seq<Event>, c: ClientId, n: Name)
    requires Inv(s) && c in s.world.clients && n !in s.world.clients[c].topics
    requires forall e :: e in later ==> !AsksFor(e, c, n)
    ensures var after := Continue(s, later);
            && c in after.world.clients && n !in after.world.clients[c].topics
            && GainsNone(s.world.clients[c].box, after.world.clients[c].box, n)
  {
    if later != [] {
      var fewer := later[..|later| - 1];
      QuietRun(s, fewer, c, n);
      ContinueInv(s, fewer);
      QuietStep(Continue(s, fewer), later[|later| - 1], c, n);
      GainsNoneOn(s.world.clients[c].box, Continue(s, fewer).world.clients[c].box, Continue(s, later).world.clients[c].box, n);
    }
  }

  /** `now` may follow on `s` without a request of `c` to subscribe to `n`. */
  ghost predicate WithoutAsking(s: State, now: State, c: ClientId, n: Name) {
    exists later :: (forall e :: e in later ==> !AsksFor(e, c, n)) && Continue(s, later) == now
  }

  /**
   From any moment at which a client does not hold a topic on, until it asks to subscribe to it, it is offered and
   accepts no message of that topic, by fan-out or by replay, whoever does what meanwhile.
   */
  lemma SilentWhileUnsubscribed(s: State, now: State, c: ClientId, n: Name)
    requires Reachable(s) && c in s.world.clients && n !in s.world.clients[c].topics
    requires WithoutAsking(s, now, c, n)
    ensures && c in now.world.clients && n !in now.world.clients[c].topics
            && GainsNone(s.world.clients[c].box, now.world.clients[c].box, n)
  {
    var later :| (forall e :: e in later ==> !AsksFor(e, c, n)) && Continue(s, later) == now;
    ReachableInv(s);
    QuietRun(s, later, c, n);
  }

  /** In particular from the moment it was offered the "unsubscribed" acknowledgement or the "topic_deleted" info. */
  lemma SilentAfterEnd(s: State, now: State, c: ClientId, n: Name)
    requires Reachable(s) && Serving(s, c)
    requires var offered := s.world.clients[c].box.offered; offered != [] && Ends(offered[|offered| - 1], n)
    requires WithoutAsking(s, now, c, n)
    ensures && c in now.world.clients
            && GainsNone(s.world.clients[c].box, now.world.clients[c].box, n)
  {
    SessionIsListing(s, c, n);
    SilentWhileUnsubscribed(s, now, c, n);
  }

  // ---------------------------------------------------------------- what the client reads

  /** One frame read for each written through the queue, showing what the accepted frame at its place shows. */
  ghost predicate ReadOk(s: State, c: ClientId)
    requires c in s.world.clients
  {
    var box := s.world.clients[c].box;
    && |ReadBy(s, c)| == Written(box) <= |box.accepted|
    && forall i :: 0 <= i < |ReadBy(s, c)| ==> ReadBy(s, c)[i] == Shown(box.accepted[i])
  }

  ghost predicate ReadsOk(s: State) {
    && s.read.Keys <= s.world.clients.Keys
    && forall c :: c in s.world.clients ==> ReadOk(s, c)
  }

  lemma {:induction false} OfferAllWrites(box: Box<ServerMessage>, frames: seq<ServerMessage>)
    requires BoxOk(box)
    ensures var after := OfferAll(box, frames);
            BoxOk(after) && Written(after) == Written(box) && Prefix(box.accepted, after.accepted)
  {
    if frames != [] {
      var fewer, last := frames[..|frames| - 1], frames[|frames| - 1];
      OfferAllWrites(box, fewer);
      OfferOk(OfferAll(box, fewer), last);
      OfferWrites(OfferAll(box, fewer), last);
    }
  }

  lemma OfferWrites(box: Box<ServerMessage>, item: ServerMessage)
    requires BoxOk(box)
    ensures Written(Offer(box, item)) == Written(box) && Prefix(box.accepted, Offer(box, item).accepted)
  {}

  lemma SameReads(s: State, e: Event, c: ClientId)
    requires !e.Wrote? || e.c != c
    ensures ReadBy(Step(s, e), c) == ReadBy(s, c)
  {}

  /** The write half takes the next accepted frame to the wire. */
  lemma PutWrites(box: Box<ServerMessage>)
    requires BoxOk(box)
    ensures var after := Put(box);
            && after.accepted == box.accepted && Written(after) <= |box.accepted|
            && (if Writes(box) then Written(after) == Written(box) + 1 && box.accepted[Written(box)] == box.inFlight.value
                else Written(after) == Written(box))
  {
    PutOk(box);
    if Writes(box) {
      assert box.accepted[Written(box)..][0] == box.inFlight.value;
    }
  }

  lemma WroteStep(s: State, c: ClientId)
    requires c in s.world.clients
    ensures var box, after := s.world.clients[c].box, Step(s, Wrote(c));
            && c in after.world.clients && after.world.clients[c].box == Put(box)
            && ReadBy(after, c) == ReadBy(s, c) + if Writes(box) then [Shown(box.inFlight.value)] else []
  {}

  lemma WroteReads(s: State, c: ClientId)
    requires Inv(s) && c in s.world.clients && ReadOk(s, c)
    ensures c in Step(s, Wrote(c)).world.clients && ReadOk(Step(s, Wrote(c)), c)
  {
    PutWrites(s.world.clients[c].box);
    WroteStep(s, c);
  }

  lemma ReadKept(s: State, after: State, c: ClientId)
    requires c in s.world.clients && c in after.world.clients && ReadOk(s, c) && ReadBy(after, c) == ReadBy(s, c)
    requires var was, now := s.world.clients[c].box, after.world.clients[c].box;
             Written(now) == Written(was) && Prefix(was.accepted, now.accepted)
    ensures ReadOk(after, c)
  {}

  lemma ReadStep(s: State, e: Event, c: ClientId)
    requires Inv(s) && c in s.world.clients && ReadOk(s, c)
    ensures c in Step(s, e).world.clients && ReadOk(Step(s, e), c)
  {
    if e == Wrote(c) {
      WroteReads(s, c);
    } else {
      SameReads(s, e, c);
      if MovesBox(e, c) {
        MovedWrites(s, e, c);
      } else {
        OfferedWrites(s, e, c);
      }
      ReadKept(s, Step(s, e), c);
    }
  }

  lemma OfferedWrites(s: State, e: Event, c: ClientId)
    requires Inv(s) && c in s.world.clients && !MovesBox(e, c)
    ensures c in Step(s, e).world.clients
    ensures var was, now := s.world.clients[c].box, Step(s, e).world.clients[c].box;
            Written(now) == Written(was) && Prefix(was.accepted, now.accepted)
  {
    var frames := FramesFor(s, e, c);
    OfferAllWrites(s.world.clients[c].box, frames);
  }

  lemma NewReader(s: State, e: Event, c: ClientId)
    requires Inv(s) && ReadsOk(s) && c !in s.world.clients && c in Step(s, e).world.clients
    ensures ReadOk(Step(s, e), c)
  {
    OnlyConnectionsAdd(s, e, c);
  }

  lemma OnlyConnectionsAdd(s: State, e: Event, c: ClientId)
    requires Inv(s) && c !in s.world.clients && c in Step(s, e).world.clients
    ensures e == Connected(c)
  {
    if e.Requested? && Serving(s, e.c) {
      RequestKeys(s.world, e.c, e.incoming);
    }
  }

  lemma RequestKeys(w: World, c: ClientId, incoming: Incoming)
    requires c in w.clients
    ensures HandleClientMessage(w, c, incoming.request, incoming.freshId, incoming.replies).clients.Keys == w.clients.Keys
  {}

  lemma ReadsStep(s: State, e: Event)
    requires Inv(s) && ReadsOk(s)
    ensures ReadsOk(Step(s, e))
  {
    var after := Step(s, e);
    forall c | c in after.world.clients ensures ReadOk(after, c) {
      if c in s.world.clients {
        ReadStep(s, e, c);
      } else {
        NewReader(s, e, c);
      }
    }
    forall c | c in after.read ensures c in after.world.clients {
      ReadersStay(s, e, c);
    }
  }

  lemma ReadersStay(s: State, e: Event, c: ClientId)
    requires Inv(s) && ReadsOk(s) && c in Step(s, e).read
    ensures c in Step(s, e).world.clients
  {
    assert c in s.world.clients;
    ReadStep(s, e, c);
  }

  lemma {:induction false} RunReads(events: seq<Event>)
    ensures ReadsOk(Run(events))
  {
    if events != [] {
      RunInv(events[..|events| - 1]);
      RunReads(events[..|events| - 1]);
      ReadsStep(Run(events[..|events| - 1]), events[|events| - 1]);
    }
  }

  /**
   What a client reads, frame for accepted frame in order, is what each shows: its own content, but for a frame of a
   replay the last message of that replay, since the whole request was over when the write loop came to it.
   */
  lemma ReadsWhatIsShown(s: State, c: ClientId)
    requires Reachable(s) && c in s.world.clients
    ensures var box := s.world.clients[c].box;
            && |ReadBy(s, c)| == Written(box) <= |box.accepted|
            && forall i :: 0 <= i < |ReadBy(s, c)| ==> ReadBy(s, c)[i] == Shown(box.accepted[i])
  {
    var events :| Run(events) == s;
    RunReads(events);
  }

  predicate AllEqual(replay: seq<Message>) {
    forall k :: 0 < k < |replay| ==> replay[k] == replay[k - 1]
  }

  /** The frame of round `k` shows the message of that round. */
  predicate ShowsItsRound(n: Name, replay: seq<Message>, k: nat)
    requires k < |replay|
  {
    Shown(Rounds(n, replay)[k]) == Delivery(n, replay[k])
  }

  predicate ReadAsFetched(n: Name, replay: seq<Message>) {
    forall k :: 0 <= k < |replay| ==> ShowsItsRound(n, replay, k)
  }

  /** The frames of one replay stand together among those accepted, from place `p` on. */
  ghost predicate AcceptedAt(s: State, c: ClientId, p: nat, n: Name, replay: seq<Message>)
    requires c in s.world.clients
  {
    var accepted := s.world.clients[c].box.accepted;
    p + |replay| <= |accepted| && forall k :: 0 <= k < |replay| ==> accepted[p + k] == Replayed(n, replay, k)
  }

  /** From place `p` on the client reads the messages of the replay, each in its own frame. */
  ghost predicate ReadAt(s: State, c: ClientId, p: nat, n: Name, replay: seq<Message>) {
    p + |replay| <= |ReadBy(s, c)| && forall k :: 0 <= k < |replay| ==> ReadBy(s, c)[p + k] == Delivery(n, replay[k])
  }

  /**
   In every run of whole requests, a client all of whose frames of a replay were written reads the replay as it was
   fetched if and only if all its messages are equal.
   */
  lemma ReplayReadAsFetchedIffEqual(s: State, c: ClientId, p: nat, n: Name, replay: seq<Message>)
    requires Reachable(s) && c in s.world.clients
    requires AcceptedAt(s, c, p, n, replay) && p + |replay| <= Written(s.world.clients[c].box)
    ensures ReadAt(s, c, p, n, replay) <==> AllEqual(replay)
  {
    ReadsWhatIsShown(s, c);
    ShownAsFetchedIffEqual(n, replay);
    forall k | 0 <= k < |replay|
      ensures ReadBy(s, c)[p + k] == Delivery(n, replay[k]) <==> ShowsItsRound(n, replay, k)
    {
      assert s.world.clients[c].box.accepted[p + k] == Replayed(n, replay, k) == Rounds(n, replay)[k];
    }
  }

  /** What it reads in each of these frames is the last message of the replay. */
  lemma ReplayReadsLast(s: State, c: ClientId, p: nat, n: Name, replay: seq<Message>, k: nat)
    requires Reachable(s) && c in s.world.clients && k < |replay|
    requires AcceptedAt(s, c, p, n, replay) && p + |replay| <= Written(s.world.clients[c].box)
    ensures p + k < |ReadBy(s, c)| && ReadBy(s, c)[p + k] == Delivery(n, replay[|replay| - 1])
  {
    ReadsWhatIsShown(s, c);
    assert s.world.clients[c].box.accepted[p + k] == Replayed(n, replay, k);
  }

  lemma ShownAsFetchedIffEqual(n: Name, replay: seq<Message>)
    ensures ReadAsFetched(n, replay) <==> AllEqual(replay)
  {
    forall k | 0 <= k < |replay| ensures ShowsItsRound(n, replay, k) <==> replay[k] == replay[|replay| - 1] {
      RoundShowsLast(n, replay, k);
    }
    if AllEqual(replay) {
      forall k | 0 <= k < |replay| ensures ShowsItsRound(n, replay, k) {
        EqualToLast(replay, k);
      }
    }
    if ReadAsFetched(n, replay) {
      forall k | 0 < k < |replay| ensures replay[k] == replay[k - 1] {
        assert ShowsItsRound(n, replay, k) && ShowsItsRound(n, replay, k - 1);
      }
    }
  }

  lemma RoundShowsLast(n: Name, replay: seq<Message>, k: nat)
    requires k < |replay|
    ensures ShowsItsRound(n, replay, k) <==> replay[k] == replay[|replay| - 1]
  {}

  lemma {:induction false} EqualToLast(replay: seq<Message>, k: nat)
    requires k < |replay| && AllEqual(replay)
    ensures replay[k] == replay[|replay| - 1]
    decreases |replay| - k
  {
    if k + 1 < |replay| {
      EqualToLast(replay, k + 1);
    }
  }

  // ---------------------------------------------------------------- a client that has left

  lemma {:induction false} OfferAllClosed(box: Box<ServerMessage>, frames: seq<ServerMessage>)
    requires box.closed
    ensures OfferAll(box, frames).closed
  {
    if frames != [] {
      OfferAllClosed(box, frames[..|frames| - 1]);
    }
  }

  lemma ClosedStays(s: State, e: Event, c: ClientId)
    requires Inv(s) && c in s.world.clients && s.world.clients[c].box.closed
    ensures c in Step(s, e).world.clients && Step(s, e).world.clients[c].box.closed
  {
    if MovesBox(e, c) {
      MovedBox(s, e, c);
    } else {
      var frames := FramesFor(s, e, c);
      OfferAllClosed(s.world.clients[c].box, frames);
    }
  }

  ghost predicate LeftClosed(s: State) {
    forall c :: c in s.left ==> c in s.world.clients && s.world.clients[c].box.closed
  }

  lemma LeftClosedStep(s: State, e: Event)
    requires Inv(s) && LeftClosed(s)
    ensures LeftClosed(Step(s, e))
  {
    forall c | c in Step(s, e).left ensures c in Step(s, e).world.clients && Step(s, e).world.clients[c].box.closed {
      if c in s.left {
        ClosedStays(s, e, c);
      } else {
        LeavesClosed(s, e, c);
      }
    }
  }

  lemma LeavesClosed(s: State, e: Event, c: ClientId)
    requires Inv(s) && c !in s.left && c in Step(s, e).left
    ensures c in Step(s, e).world.clients && Step(s, e).world.clients[c].box.closed
  {
    CleanedUpClient(s.world, c);
  }

  lemma {:induction false} RunLeftClosed(events: seq<Event>)
    ensures LeftClosed(Run(events))
  {
    if events != [] {
      RunInv(events[..|events| - 1]);
      RunLeftClosed(events[..|events| - 1]);
      LeftClosedStep(Run(events[..|events| - 1]), events[|events| - 1]);
    }
  }

  /** Once a client's cleanup is over its queue is closed and its connection down, in every continuation. */
  lemma LeftIsClosed(s: State, c: ClientId)
    requires Reachable(s) && c in s.left
    ensures c in s.world.clients && s.world.clients[c].box.closed && !s.world.clients[c].box.up
  {
    var events :| Run(events) == s;
    RunLeftClosed(events);
    RunInv(events);
    assert BoxOk(s.world.clients[c].box);
  }
}
