/**
 What can still reach a client that has left a topic. Nothing of the topic is offered to it until it subscribes again,
 unless a publish took its snapshot while the client was listed and has yet to send to it.
 */
module LateFanOut {
  import opened Model
  import opened Mailbox
  import opened ReplayLog
  import opened Delivery
  import opened DeliveryProofs
  import opened Coverage
  import opened StaleGap
  import opened FailedSaves

  /** No object of the name, live or deleted, lists the client. */
  ghost predicate OffEvery(s: State, c: ClientId, n: Name) {
    forall t :: 0 <= t < |s.objects| && s.objects[t].name == n ==> c !in s.objects[t].subs
  }

  /** On the way through a subscribe to the name, its replay included. */
  predicate Subscribing(pc: Pc, n: Name) {
    (pc.SubGot? || pc.SubAdded? || pc.Replaying?) && pc.name == n
  }

  /** A publish of the name under way still has the client to send to. */
  ghost predicate Awaited(s: State, c: ClientId, n: Name) {
    exists b :: AwaitsFor(PcOf(s, b), c, n)
  }

  predicate AwaitsFor(pc: Pc, c: ClientId, n: Name) {
    pc.PubSending? && pc.name == n && c in pc.waiting
  }

  /** The client has left the topic, and no subscribe of its own is under way. */
  ghost predicate HasLeft(s: State, c: ClientId, n: Name) {
    c in s.clients && OffEvery(s, c, n) && !Subscribing(s.clients[c].pc, n)
  }

  predicate AsksFor(a: Action, c: ClientId, n: Name) {
    a.FindToSubscribe? && a.c == c && a.name == n
  }

  /** `now` may follow on `s` without the client asking to subscribe to the name. */
  ghost predicate WithoutAsking(s: State, now: State, c: ClientId, n: Name) {
    exists later :: (forall a :: a in later ==> !AsksFor(a, c, n)) && Continue(s, later) == now
  }

  predicate IsOf(e: Entry, n: Name) {
    e.Item? && e.name == n
  }

  /** Nothing of the name was added to what was offered. */
  ghost predicate HearsNone(was: seq<Entry>, now: seq<Entry>, n: Name) {
    Prefix(was, now) && forall i :: |was| <= i < |now| ==> !IsOf(now[i], n)
  }

  // ---------------------------------------------------------------- one step

  /** Only the client's own add lists it, and only at the object it found. */
  ghost predicate ListedFrom(s: State, a: Action, t: nat, c: ClientId)
    requires t < |Step(s, a).objects|
  {
    c in Step(s, a).objects[t].subs ==>
      || (t < |s.objects| && c in s.objects[t].subs)
      || (a == Add(c) && PcOf(s, c).SubGot? && PcOf(s, c).tid == t < |s.objects|)
  }

  lemma AddListsFrom(s: State, b: ClientId, t: nat, c: ClientId)
    requires t < |DoAdd(s, b).objects|
    ensures ListedFrom(s, Add(b), t, c)
  {}

  lemma PlainListsFrom(s: State, a: Action, t: nat, c: ClientId)
    requires Plain(a) && t < |Step(s, a).objects|
    ensures ListedFrom(s, a, t, c)
  {}

  lemma OthersListFrom(s: State, a: Action, t: nat, c: ClientId)
    requires a.Evict? || a.FetchReplay? || a.SendOne?
    requires t < |Step(s, a).objects|
    ensures ListedFrom(s, a, t, c)
  {}

  lemma ListsFrom(s: State, a: Action, t: nat, c: ClientId)
    requires t < |Step(s, a).objects|
    ensures ListedFrom(s, a, t, c)
  {
    if MovesPublish(a) {
      SameListings(s, a);
    } else if Own(a) {
      var client := OwnMove(s, a);
    } else if Plain(a) {
      PlainListsFrom(s, a, t, c);
    } else if a.Add? {
      AddListsFrom(s, a.c, t, c);
    } else {
      OthersListFrom(s, a, t, c);
    }
  }

  lemma StaysOff(s: State, a: Action, c: ClientId, n: Name)
    requires Refs(s) && HasLeft(s, c, n)
    ensures OffEvery(Step(s, a), c, n)
  {
    ObjectsStep(s, a);
    var after := Step(s, a);
    forall t | 0 <= t < |after.objects| && after.objects[t].name == n ensures c !in after.objects[t].subs {
      ListsFrom(s, a, t, c);
    }
  }

  /** A subscribe goes on under the name it began with. */
  ghost predicate SubscribeFrom(s: State, a: Action, c: ClientId, n: Name) {
    Subscribing(PcOf(Step(s, a), c), n) ==> Subscribing(PcOf(s, c), n) || AsksFor(a, c, n)
  }

  lemma OwnSubscribe(s: State, a: Action, c: ClientId, n: Name)
    requires Own(a)
    ensures SubscribeFrom(s, a, c, n)
  {}

  lemma PublisherSubscribe(s: State, a: Action, c: ClientId, n: Name)
    requires MovesPublish(a)
    ensures SubscribeFrom(s, a, c, n)
  {
    PublishMoves(s, a);
    if a.c == c {
      PublisherIsNoSubscriber(s, a, n);
    }
  }

  lemma PublisherIsNoSubscriber(s: State, a: Action, n: Name)
    requires MovesPublish(a)
    ensures Subscribing(PcOf(Step(s, a), a.c), n) ==> Subscribing(PcOf(s, a.c), n)
  {}

  lemma OtherSubscribe(s: State, a: Action, c: ClientId, n: Name)
    requires a.Evict? || a.Add? || a.FetchReplay? || a.SendOne?
    ensures SubscribeFrom(s, a, c, n)
  {
    match a
    case Evict(b, tid) => EvictSubscribe(s, b, tid, c, n);
    case Add(b) => AddSubscribe(s, b, c, n);
    case FetchReplay(b, reply) => FetchSubscribe(s, b, reply, c, n);
    case SendOne(b, to) => SendOneSubscribe(s, b, to, c, n);
  }

  lemma EvictSubscribe(s: State, b: ClientId, tid: TopicId, c: ClientId, n: Name)
    ensures SubscribeFrom(s, Evict(b, tid), c, n)
  {}

  lemma AddSubscribe(s: State, b: ClientId, c: ClientId, n: Name)
    ensures SubscribeFrom(s, Add(b), c, n)
  {}

  lemma FetchSubscribe(s: State, b: ClientId, reply: Reply, c: ClientId, n: Name)
    ensures SubscribeFrom(s, FetchReplay(b, reply), c, n)
  {}

  lemma SendOneSubscribe(s: State, b: ClientId, to: ClientId, c: ClientId, n: Name)
    ensures SubscribeFrom(s, SendOne(b, to), c, n)
  {}

  lemma SubscribesFrom(s: State, a: Action, c: ClientId, n: Name)
    ensures SubscribeFrom(s, a, c, n)
  {
    if Own(a) {
      OwnSubscribe(s, a, c, n);
    } else if MovesPublish(a) {
      PublisherSubscribe(s, a, c, n);
    } else if Plain(a) {
      PlainTasks(s, a);
    } else {
      OtherSubscribe(s, a, c, n);
    }
  }

  /** A publish comes to wait for a client only by a snapshot of an object that lists it. */
  ghost predicate AwaitsFrom(s: State, a: Action, b: ClientId, c: ClientId, n: Name) {
    AwaitsFor(PcOf(Step(s, a), b), c, n) ==>
      || AwaitsFor(PcOf(s, b), c, n)
      || (a == Snapshot(b) && PcOf(s, b).PubCounted? && PcOf(s, b).name == n && PcOf(s, b).tid < |s.objects|
          && c in s.objects[PcOf(s, b).tid].subs)
  }

  lemma OwnAwaits(s: State, a: Action, b: ClientId, c: ClientId, n: Name)
    requires Own(a)
    ensures AwaitsFrom(s, a, b, c, n)
  {
    OwnStartsNoSending(s, a, b);
  }

  lemma OwnStartsNoSending(s: State, a: Action, b: ClientId)
    requires Own(a)
    ensures PcOf(Step(s, a), b).PubSending? ==> PcOf(Step(s, a), b) == PcOf(s, b)
  {}

  lemma PublisherAwaits(s: State, a: Action, b: ClientId, c: ClientId, n: Name)
    requires MovesPublish(a)
    ensures AwaitsFrom(s, a, b, c, n)
  {
    PublishMoves(s, a);
    if a.c == b {
      PublisherOwnAwaits(s, a, c, n);
    }
  }

  lemma PublisherOwnAwaits(s: State, a: Action, c: ClientId, n: Name)
    requires MovesPublish(a)
    ensures AwaitsFrom(s, a, a.c, c, n)
  {}

  lemma OtherAwaits(s: State, a: Action, b: ClientId, c: ClientId, n: Name)
    requires a.Evict? || a.Add? || a.FetchReplay? || a.SendOne?
    ensures AwaitsFrom(s, a, b, c, n)
  {
    match a
    case Evict(d, tid) => EvictAwaits(s, d, tid, b, c, n);
    case Add(d) => AddAwaits(s, d, b, c, n);
    case FetchReplay(d, reply) => FetchAwaits(s, d, reply, b, c, n);
    case SendOne(d, to) => SendOneAwaits(s, d, to, b, c, n);
  }

  lemma EvictAwaits(s: State, d: ClientId, tid: TopicId, b: ClientId, c: ClientId, n: Name)
    ensures AwaitsFrom(s, Evict(d, tid), b, c, n)
  {}

  lemma AddAwaits(s: State, d: ClientId, b: ClientId, c: ClientId, n: Name)
    ensures AwaitsFrom(s, Add(d), b, c, n)
  {}

  lemma FetchAwaits(s: State, d: ClientId, reply: Reply, b: ClientId, c: ClientId, n: Name)
    ensures AwaitsFrom(s, FetchReplay(d, reply), b, c, n)
  {}

  lemma SendOneAwaits(s: State, d: ClientId, to: ClientId, b: ClientId, c: ClientId, n: Name)
    ensures AwaitsFrom(s, SendOne(d, to), b, c, n)
  {}

  lemma StaysUnawaited(s: State, a: Action, c: ClientId, n: Name)
    requires Refs(s) && HasLeft(s, c, n) && !Awaited(s, c, n)
    ensures !Awaited(Step(s, a), c, n)
  {
    forall b ensures !AwaitsFor(PcOf(Step(s, a), b), c, n) {
      if Own(a) {
        OwnAwaits(s, a, b, c, n);
      } else if MovesPublish(a) {
        PublisherAwaits(s, a, b, c, n);
      } else if Plain(a) {
        PlainTasks(s, a);
      } else {
        OtherAwaits(s, a, b, c, n);
      }
      assert !AwaitsFor(PcOf(s, b), c, n);
    }
  }

  lemma OfferIsFromElsewhere(s: State, a: Action, c: ClientId, n: Name)
    requires HasLeft(s, c, n) && !Awaited(s, c, n) && OfferOf(s, a, c).Some?
    ensures !IsOf(OfferOf(s, a, c).value, n)
  {
    if a.SendOne? {
      assert !AwaitsFor(PcOf(s, a.c), c, n);
    }
  }

  lemma SilentStep(s: State, a: Action, c: ClientId, n: Name)
    requires Refs(s) && HasLeft(s, c, n) && !Awaited(s, c, n) && !AsksFor(a, c, n)
    ensures HasLeft(Step(s, a), c, n) && !Awaited(Step(s, a), c, n)
    ensures HearsNone(s.clients[c].box.offered, Step(s, a).clients[c].box.offered, n)
  {
    OfferedGrows(s, a, c);
    StaysOff(s, a, c, n);
    SubscribesFrom(s, a, c, n);
    StaysUnawaited(s, a, c, n);
    if OfferOf(s, a, c).Some? {
      OfferIsFromElsewhere(s, a, c, n);
    }
  }

  // ---------------------------------------------------------------- in every continuation

  lemma {:induction false} SilentOn(s: State, later: seq<Action>, c: ClientId, n: Name)
    requires Inv(s) && HasLeft(s, c, n) && !Awaited(s, c, n) && forall a :: a in later ==> !AsksFor(a, c, n)
    ensures var now := Continue(s, later);
            && HasLeft(now, c, n) && !Awaited(now, c, n)
            && HearsNone(s.clients[c].box.offered, now.clients[c].box.offered, n)
  {
    if later != [] {
      var fewer := later[..|later| - 1];
      SilentOn(s, fewer, c, n);
      ContinueInv(s, fewer);
      SilentStep(Continue(s, fewer), later[|later| - 1], c, n);
      HearsNoneOn(s.clients[c].box.offered, Continue(s, fewer).clients[c].box.offered,
                  Continue(s, later).clients[c].box.offered, n);
    }
  }

  lemma HearsNoneOn(first: seq<Entry>, second: seq<Entry>, third: seq<Entry>, n: Name)
    requires HearsNone(first, second, n) && HearsNone(second, third, n)
    ensures HearsNone(first, third, n)
  {}

  /** In no continuation in which the client does not ask to subscribe is it offered anything of the name. */
  ghost predicate SilentAlways(s: State, c: ClientId, n: Name)
    requires c in s.clients
  {
    forall now :: WithoutAsking(s, now, c, n) ==>
      c in now.clients && HearsNone(s.clients[c].box.offered, now.clients[c].box.offered, n)
  }

  /**
   A client that has left a topic and is not on its way back is offered nothing of the topic, however everything
   interleaves, until it asks to subscribe: if and only if no publish of the name still waits to send to it.
   */
  lemma SilentIffNotAwaited(s: State, c: ClientId, n: Name)
    requires Reachable(s) && HasLeft(s, c, n)
    ensures SilentAlways(s, c, n) <==> !Awaited(s, c, n)
  {
    ReachableInv(s);
    if Awaited(s, c, n) {
      LateSend(s, c, n);
    } else {
      forall now | WithoutAsking(s, now, c, n)
        ensures c in now.clients && HearsNone(s.clients[c].box.offered, now.clients[c].box.offered, n)
      {
        var later :| (forall a :: a in later ==> !AsksFor(a, c, n)) && Continue(s, later) == now;
        SilentOn(s, later, c, n);
      }
    }
  }

  lemma OneStepOn(s: State, a: Action, c: ClientId, n: Name)
    requires !AsksFor(a, c, n)
    ensures WithoutAsking(s, Step(s, a), c, n)
  {
    assert [a][..0] == [];
    assert Continue(s, [a]) == Step(s, a);
  }

  /** One send is enough to be heard. */
  lemma LateSend(s: State, c: ClientId, n: Name)
    requires HasLeft(s, c, n) && Awaited(s, c, n)
    ensures !SilentAlways(s, c, n)
  {
    var b :| AwaitsFor(PcOf(s, b), c, n);
    OneStepOn(s, SendOne(b, c), c, n);
    OfferedGrows(s, SendOne(b, c), c);
    var was, now := s.clients[c].box.offered, Step(s, SendOne(b, c)).clients[c].box.offered;
    assert IsOf(now[|was|], n);
  }

  // ---------------------------------------------------------------- it happens

  /** Client 1 at `subscriber`, client 2 with the topic in hand to publish to it. */
  function Arriving(name: Name, m: Message, subs: set<ClientId>, subscriber: Pc, entries: seq<Entry>): State {
    START.(objects := [Object(name, subs, 0)], live := map[name := 0], clients := Two(subscriber, entries, PubGot(name, 0, m)))
  }

  /** Client 1 has its subscribe behind it, client 2's publish is at `publisher`. */
  function Midway(name: Name, m: Message, subs: set<ClientId>, status: Status, count: nat, publisher: Pc, entries: seq<Entry>)
    : State
  {
    State([Object(name, subs, count)], map[name := 0], Two(Idle, entries, publisher),
          map[name := [Push(0, 2, m, status)]], map[name := [Stored(0, m)]], map[], {})
  }

  lemma FindsAndAdds(name: Name, m: Message)
    ensures Reachable(Arriving(name, m, {1}, SubAdded(name, 0, 0), []))
  {
    FoundIsReachable(name, m);
    EqualStates(AfterFind(name, m), Arriving(name, m, {}, Idle, []));
    ReachableStep(Arriving(name, m, {}, Idle, []), FindToSubscribe(1, name, 0));
    Finds1(name, m);
    ReachableStep(Arriving(name, m, {}, SubGot(name, 0, 0), []), Add(1));
    Adds1(name, m);
  }

  lemma Finds1(name: Name, m: Message)
    ensures Step(Arriving(name, m, {}, Idle, []), FindToSubscribe(1, name, 0)) == Arriving(name, m, {}, SubGot(name, 0, 0), [])
  {
    EqualStates(Step(Arriving(name, m, {}, Idle, []), FindToSubscribe(1, name, 0)),
                Arriving(name, m, {}, SubGot(name, 0, 0), []));
  }

  lemma Adds1(name: Name, m: Message)
    ensures Step(Arriving(name, m, {}, SubGot(name, 0, 0), []), Add(1)) == Arriving(name, m, {1}, SubAdded(name, 0, 0), [])
  {
    EqualStates(DoAdd(Arriving(name, m, {}, SubGot(name, 0, 0), []), 1), Arriving(name, m, {1}, SubAdded(name, 0, 0), []));
  }

  lemma AsksForNoReplay(name: Name, m: Message)
    ensures Step(Arriving(name, m, {1}, SubAdded(name, 0, 0), []), FetchReplay(1, Applied))
            == Arriving(name, m, {1}, Replaying(name, []), [])
  {
    EqualStates(DoFetch(Arriving(name, m, {1}, SubAdded(name, 0, 0), []), 1, Applied),
                Arriving(name, m, {1}, Replaying(name, []), []));
  }

  lemma IsAnswered(name: Name, m: Message)
    ensures Step(Arriving(name, m, {1}, Replaying(name, []), []), ReplayDone(1)) == Arriving(name, m, {1}, Idle, [Answer])
  {
    assert Offer(BoxOf([]), Answer) == BoxOf([Answer]);
    EqualStates(Step(Arriving(name, m, {1}, Replaying(name, []), []), ReplayDone(1)), Arriving(name, m, {1}, Idle, [Answer]));
  }

  lemma Subscribed1(name: Name, m: Message)
    ensures Reachable(Arriving(name, m, {1}, Idle, [Answer]))
  {
    FindsAndAdds(name, m);
    ReachableStep(Arriving(name, m, {1}, SubAdded(name, 0, 0), []), FetchReplay(1, Applied));
    AsksForNoReplay(name, m);
    ReachableStep(Arriving(name, m, {1}, Replaying(name, []), []), ReplayDone(1));
    IsAnswered(name, m);
  }

  lemma Pushes2(name: Name, m: Message)
    ensures Step(Arriving(name, m, {1}, Idle, [Answer]), PushMessage(2, Applied))
            == Midway(name, m, {1}, Pushed, 0, PubPushed(name, 0, m, 0), [Answer])
  {
    var s := Arriving(name, m, {1}, Idle, [Answer]);
    assert HistoryOf(s, name) == [] && [] + [Push(0, 2, m, Pushed)] == [Push(0, 2, m, Pushed)];
    assert StoredList(s, name) == [] && LPush([], Stored(0, m)) == [Stored(0, m)];
    EqualStates(DoPush(s, 2, Applied), Midway(name, m, {1}, Pushed, 0, PubPushed(name, 0, m, 0), [Answer]));
  }

  lemma Trims2(name: Name, m: Message)
    ensures Step(Midway(name, m, {1}, Pushed, 0, PubPushed(name, 0, m, 0), [Answer]), TrimList(2, Applied))
            == Midway(name, m, {1}, Trimmed, 0, PubTrimmed(name, 0, m, 0), [Answer])
  {
    assert SetStatus([Push(0, 2, m, Pushed)], 0, Trimmed) == [Push(0, 2, m, Trimmed)];
    assert LTrim([Stored(0, m)], 0, REPLAY_BUFFER_SIZE - 1) == [Stored(0, m)];
    EqualStates(DoTrim(Midway(name, m, {1}, Pushed, 0, PubPushed(name, 0, m, 0), [Answer]), 2, Applied),
                Midway(name, m, {1}, Trimmed, 0, PubTrimmed(name, 0, m, 0), [Answer]));
  }

  lemma Counts2(name: Name, m: Message)
    ensures Step(Midway(name, m, {1}, Trimmed, 0, PubTrimmed(name, 0, m, 0), [Answer]), Count(2))
            == Midway(name, m, {1}, Counted, 1, PubCounted(name, 0, m, 0), [Answer])
  {
    assert SetStatus([Push(0, 2, m, Trimmed)], 0, Counted) == [Push(0, 2, m, Counted)];
    EqualStates(DoCount(Midway(name, m, {1}, Trimmed, 0, PubTrimmed(name, 0, m, 0), [Answer]), 2),
                Midway(name, m, {1}, Counted, 1, PubCounted(name, 0, m, 0), [Answer]));
  }

  lemma TakesSnapshot(name: Name, m: Message)
    ensures Step(Midway(name, m, {1}, Counted, 1, PubCounted(name, 0, m, 0), [Answer]), Snapshot(2))
            == Midway(name, m, {1}, Sending, 1, PubSending(name, 0, m, 0, {1}), [Answer])
  {
    assert SetStatus([Push(0, 2, m, Counted)], 0, Sending) == [Push(0, 2, m, Sending)];
    EqualStates(DoSnapshot(Midway(name, m, {1}, Counted, 1, PubCounted(name, 0, m, 0), [Answer]), 2),
                Midway(name, m, {1}, Sending, 1, PubSending(name, 0, m, 0, {1}), [Answer]));
  }

  lemma Leaves1(name: Name, m: Message)
    ensures Step(Midway(name, m, {1}, Sending, 1, PubSending(name, 0, m, 0, {1}), [Answer]), Remove(1, 0))
            == Midway(name, m, {}, Sending, 1, PubSending(name, 0, m, 0, {1}), [Answer])
  {
    var one: set<ClientId> := {1};
    assert one - {1} == {};
    EqualStates(DoTakeOff(Midway(name, m, {1}, Sending, 1, PubSending(name, 0, m, 0, {1}), [Answer]), 1, 0),
                Midway(name, m, {}, Sending, 1, PubSending(name, 0, m, 0, {1}), [Answer]));
  }

  lemma IsSent1(name: Name, m: Message)
    ensures Step(Midway(name, m, {}, Sending, 1, PubSending(name, 0, m, 0, {1}), [Answer]), SendOne(2, 1))
            == Midway(name, m, {}, Sending, 1, PubSending(name, 0, m, 0, {}), [Answer, Item(name, 0, m, FanOut)])
  {
    var entry, one: set<ClientId> := Item(name, 0, m, FanOut), {1};
    assert one - {1} == {};
    assert Offer(BoxOf([Answer]), entry) == BoxOf([Answer, entry]);
    EqualStates(DoSendOne(Midway(name, m, {}, Sending, 1, PubSending(name, 0, m, 0, {1}), [Answer]), 2, 1),
                Midway(name, m, {}, Sending, 1, PubSending(name, 0, m, 0, {}), [Answer, entry]));
  }

  lemma SavedAndCounted(name: Name, m: Message)
    ensures Reachable(Midway(name, m, {1}, Trimmed, 0, PubTrimmed(name, 0, m, 0), [Answer]))
  {
    Subscribed1(name, m);
    ReachableStep(Arriving(name, m, {1}, Idle, [Answer]), PushMessage(2, Applied));
    Pushes2(name, m);
    ReachableStep(Midway(name, m, {1}, Pushed, 0, PubPushed(name, 0, m, 0), [Answer]), TrimList(2, Applied));
    Trims2(name, m);
  }

  lemma SnapshotTaken(name: Name, m: Message)
    ensures Reachable(Midway(name, m, {1}, Sending, 1, PubSending(name, 0, m, 0, {1}), [Answer]))
  {
    SavedAndCounted(name, m);
    ReachableStep(Midway(name, m, {1}, Trimmed, 0, PubTrimmed(name, 0, m, 0), [Answer]), Count(2));
    Counts2(name, m);
    ReachableStep(Midway(name, m, {1}, Counted, 1, PubCounted(name, 0, m, 0), [Answer]), Snapshot(2));
    TakesSnapshot(name, m);
  }

  /** Client 2's publish takes its snapshot, client 1 leaves the topic, and then is sent the message. */
  lemma LateFanOutHappens(name: Name, m: Message)
    ensures exists s :: && Reachable(s) && HasLeft(s, 1, name) && s.clients[1].box.offered == [Answer]
                        && 1 in Step(s, SendOne(2, 1)).clients
                        && Step(s, SendOne(2, 1)).clients[1].box.queue == [Answer, Item(name, 0, m, FanOut)]
  {
    SnapshotTaken(name, m);
    ReachableStep(Midway(name, m, {1}, Sending, 1, PubSending(name, 0, m, 0, {1}), [Answer]), Remove(1, 0));
    Leaves1(name, m);
    IsSent1(name, m);
    var s := Midway(name, m, {}, Sending, 1, PubSending(name, 0, m, 0, {1}), [Answer]);
    assert HasLeft(s, 1, name);
  }
}
