/** The fan-outs a client is sent: each push at most once, and the pushes of one publisher to one name in push order. */
module FanOutOrder {
  import opened Model
  import opened Mailbox
  import opened ReplayLog
  import opened Delivery
  import opened DeliveryProofs
  import opened Coverage
  import opened FanOutRuns

  predicate IsFanOut(e: Entry) {
    e.Item? && e.via == FanOut
  }

  /** Two entries carry pushes that one handler made to one name. */
  ghost predicate SamePublisher(s: State, e: Entry, f: Entry) {
    && IsFanOut(e) && IsFanOut(f) && e.name == f.name
    && e.number < |HistoryOf(s, e.name)| && f.number < |HistoryOf(s, e.name)|
    && HistoryOf(s, e.name)[e.number].publisher == HistoryOf(s, e.name)[f.number].publisher
  }

  ghost predicate InOrder(s: State, offered: seq<Entry>) {
    forall i, j :: 0 <= i < j < |offered| && SamePublisher(s, offered[i], offered[j]) ==> offered[i].number < offered[j].number
  }

  /** What client `c` was sent is no newer than what the publisher is at, and if it is that, `c` is not waited for any more. */
  predicate NotAhead(pc: Pc, c: ClientId, e: Entry)
    requires e.Item?
  {
    Publishing(pc) && pc.name == e.name ==>
      e.number <= pc.number && (e.number == pc.number ==> pc.PubSending? && c !in pc.waiting)
  }

  ghost predicate Behind(s: State, c: ClientId, e: Entry) {
    IsFanOut(e) ==>
      e.number < |HistoryOf(s, e.name)| && NotAhead(PcOf(s, HistoryOf(s, e.name)[e.number].publisher), c, e)
  }

  ghost predicate ClientOrdered(s: State, c: ClientId)
    requires c in s.clients
  {
    var offered := s.clients[c].box.offered;
    InOrder(s, offered) && forall i :: 0 <= i < |offered| ==> Behind(s, c, offered[i])
  }

  ghost predicate Ordered(s: State) {
    forall c :: c in s.clients ==> ClientOrdered(s, c)
  }

  // ---------------------------------------------------------------- one step

  /** A publish goes on as it was, waiting for fewer; or moves to its next stage; or begins with a push at the end of the history. */
  ghost predicate PublishFrom(s: State, a: Action, b: ClientId) {
    var was, now := PcOf(s, b), PcOf(Step(s, a), b);
    Publishing(now) ==>
      || (Publishing(was) && now.name == was.name && now.number == was.number
          && (was.PubSending? ==> now.PubSending? && now.waiting <= was.waiting))
      || (was.PubGot? && now.PubPushed? && now.number == |HistoryOf(s, now.name)|)
  }

  lemma OwnPublishFrom(s: State, a: Action, b: ClientId)
    requires Own(a)
    ensures PublishFrom(s, a, b)
  {}

  lemma PublisherPublishFrom(s: State, a: Action, b: ClientId)
    requires MovesPublish(a)
    ensures PublishFrom(s, a, b)
  {
    PublishMoves(s, a);
    if a.c == b {
      match a
      case PushMessage(c, reply) => PushPublishFrom(s, c, reply);
      case TrimList(c, reply) => TrimPublishFrom(s, c, reply);
      case _ => LaterPublishFrom(s, a);
    }
  }

  lemma PushPublishFrom(s: State, c: ClientId, reply: Reply)
    ensures PublishFrom(s, PushMessage(c, reply), c)
  {}

  lemma TrimPublishFrom(s: State, c: ClientId, reply: Reply)
    ensures PublishFrom(s, TrimList(c, reply), c)
  {}

  lemma LaterPublishFrom(s: State, a: Action)
    requires a.Count? || a.Snapshot? || a.SendDone?
    ensures PublishFrom(s, a, a.c)
  {}

  lemma OtherPublishFrom(s: State, a: Action, b: ClientId)
    requires a.Evict? || a.Add? || a.FetchReplay? || a.SendOne?
    ensures PublishFrom(s, a, b)
  {
    match a
    case Evict(c, tid) => EvictPublishFrom(s, c, tid, b);
    case Add(c) => AddPublishFrom(s, c, b);
    case FetchReplay(c, reply) => FetchPublishFrom(s, c, reply, b);
    case SendOne(c, to) => SendOnePublishFrom(s, c, to, b);
  }

  lemma EvictPublishFrom(s: State, c: ClientId, tid: TopicId, b: ClientId)
    ensures PublishFrom(s, Evict(c, tid), b)
  {}

  lemma AddPublishFrom(s: State, c: ClientId, b: ClientId)
    ensures PublishFrom(s, Add(c), b)
  {}

  lemma FetchPublishFrom(s: State, c: ClientId, reply: Reply, b: ClientId)
    ensures PublishFrom(s, FetchReplay(c, reply), b)
  {}

  lemma SendOnePublishFrom(s: State, c: ClientId, to: ClientId, b: ClientId)
    ensures PublishFrom(s, SendOne(c, to), b)
  {}

  lemma PublishesFrom(s: State, a: Action, b: ClientId)
    ensures PublishFrom(s, a, b)
  {
    if Own(a) {
      OwnPublishFrom(s, a, b);
    } else if MovesPublish(a) {
      PublisherPublishFrom(s, a, b);
    } else if Plain(a) {
      PlainTasks(s, a);
    } else {
      OtherPublishFrom(s, a, b);
    }
  }

  lemma PublisherStays(s: State, a: Action, n: Name, k: nat)
    requires k < |HistoryOf(s, n)|
    ensures k < |HistoryOf(Step(s, a), n)|
    ensures HistoryOf(Step(s, a), n)[k].publisher == HistoryOf(s, n)[k].publisher
  {
    HistoryStep(s, a, n);
  }

  lemma BehindStays(s: State, a: Action, c: ClientId, e: Entry)
    requires Behind(s, c, e)
    ensures Behind(Step(s, a), c, e)
  {
    if IsFanOut(e) {
      PublisherStays(s, a, e.name, e.number);
      PublishesFrom(s, a, HistoryOf(s, e.name)[e.number].publisher);
    }
  }

  /** The fan-out a client is sent next comes after all that the same publisher has sent it under the name. */
  lemma NextIsNewer(s: State, a: Action, c: ClientId, e: Entry)
    requires Publishers(s) && c in s.clients && OfferOf(s, a, c).Some? && IsFanOut(OfferOf(s, a, c).value)
    requires Behind(s, c, e) && SamePublisher(s, e, OfferOf(s, a, c).value)
    ensures e.number < OfferOf(s, a, c).value.number
  {
    FanOutOffer(s, a, c);
    assert Recorded(s, a.c);
  }

  lemma NextIsBehind(s: State, a: Action, c: ClientId)
    requires Publishers(s) && c in s.clients && OfferOf(s, a, c).Some?
    ensures Behind(Step(s, a), c, OfferOf(s, a, c).value)
  {
    var e := OfferOf(s, a, c).value;
    if IsFanOut(e) {
      FanOutOffer(s, a, c);
      assert Recorded(s, a.c);
      PublisherStays(s, a, e.name, e.number);
      SentIsOff(s, a.c, c);
    }
  }

  lemma SentIsOff(s: State, b: ClientId, c: ClientId)
    requires b in s.clients && c in s.clients && s.clients[b].pc.PubSending? && c in s.clients[b].pc.waiting
    ensures var was, now := s.clients[b].pc, PcOf(Step(s, SendOne(b, c)), b);
            now == was.(waiting := was.waiting - {c})
  {}

  lemma SamePublisherBefore(s: State, a: Action, e: Entry, f: Entry)
    requires SamePublisher(Step(s, a), e, f)
    requires e.number < |HistoryOf(s, e.name)| && f.number < |HistoryOf(s, f.name)|
    ensures SamePublisher(s, e, f)
  {
    PublisherStays(s, a, e.name, e.number);
    PublisherStays(s, a, f.name, f.number);
  }

  lemma OrderStep(s: State, a: Action, c: ClientId, i: nat, j: nat)
    requires Publishers(s) && Items(s) && c in s.clients && ClientOrdered(s, c)
    requires c in Step(s, a).clients && i < j < |Step(s, a).clients[c].box.offered|
    requires var now := Step(s, a).clients[c].box.offered; SamePublisher(Step(s, a), now[i], now[j])
    ensures var now := Step(s, a).clients[c].box.offered; now[i].number < now[j].number
  {
    var was, now := s.clients[c].box.offered, Step(s, a).clients[c].box.offered;
    OfferedGrows(s, a, c);
    assert Behind(s, c, was[i]);
    if j < |was| {
      assert Behind(s, c, was[j]);
      SamePublisherBefore(s, a, was[i], was[j]);
    } else {
      OfferedOk(s, a, c);
      SamePublisherBefore(s, a, was[i], now[j]);
      NextIsNewer(s, a, c, was[i]);
    }
  }

  lemma BehindStep(s: State, a: Action, c: ClientId, i: nat)
    requires Publishers(s) && c in s.clients && ClientOrdered(s, c)
    requires c in Step(s, a).clients && i < |Step(s, a).clients[c].box.offered|
    ensures Behind(Step(s, a), c, Step(s, a).clients[c].box.offered[i])
  {
    OfferedGrows(s, a, c);
    if i < |s.clients[c].box.offered| {
      BehindStays(s, a, c, s.clients[c].box.offered[i]);
    } else {
      NextIsBehind(s, a, c);
    }
  }

  lemma OrderedStep(s: State, a: Action)
    requires Inv(s) && Ordered(s)
    ensures Ordered(Step(s, a))
  {
    var after := Step(s, a);
    forall c | c in after.clients ensures ClientOrdered(after, c) {
      if c in s.clients {
        var now := after.clients[c].box.offered;
        forall i, j | 0 <= i < j < |now| && SamePublisher(after, now[i], now[j]) ensures now[i].number < now[j].number {
          OrderStep(s, a, c, i, j);
        }
        forall i | 0 <= i < |now| ensures Behind(after, c, now[i]) {
          BehindStep(s, a, c, i);
        }
      } else {
        NewClientOk(s, a, c);
      }
    }
  }

  // ---------------------------------------------------------------- every run

  lemma {:induction false} RunOrdered(actions: seq<Action>)
    ensures Ordered(Run(actions))
  {
    if actions != [] {
      RunInv(actions[..|actions| - 1]);
      RunOrdered(actions[..|actions| - 1]);
      OrderedStep(Run(actions[..|actions| - 1]), actions[|actions| - 1]);
    }
  }

  lemma ReachableOrdered(s: State)
    requires Reachable(s)
    ensures Ordered(s)
  {
    var actions :| Run(actions) == s;
    RunOrdered(actions);
  }

  /** In every interleaving the fan-outs of one publisher's pushes to one name stand in push order in what a client is offered. */
  lemma FanOutsInPushOrder(s: State, c: ClientId, i: nat, j: nat)
    requires Reachable(s) && c in s.clients && i < j < |s.clients[c].box.offered|
    requires SamePublisher(s, s.clients[c].box.offered[i], s.clients[c].box.offered[j])
    ensures s.clients[c].box.offered[i].number < s.clients[c].box.offered[j].number
  {
    ReachableOrdered(s);
    assert ClientOrdered(s, c);
  }

  predicate IsFanOutOf(e: Entry, n: Name, k: nat) {
    IsFanOut(e) && e.name == n && e.number == k
  }

  /** The fan-out of the push stands at one place among what the client was offered. */
  ghost predicate HeardOnce(s: State, c: ClientId, n: Name, k: nat)
    requires c in s.clients
  {
    var offered := s.clients[c].box.offered;
    exists i :: 0 <= i < |offered| && IsFanOutOf(offered[i], n, k)
                && forall j :: 0 <= j < |offered| && IsFanOutOf(offered[j], n, k) ==> j == i
  }

  lemma HeardIsHeardOnce(s: State, c: ClientId, n: Name, k: nat)
    requires Inv(s) && Ordered(s) && Heard(s, c, n, k)
    ensures HeardOnce(s, c, n, k)
  {
    var offered := s.clients[c].box.offered;
    var e :| e in offered && IsFanOutOf(e, n, k);
    var i :| 0 <= i < |offered| && offered[i] == e;
    assert ClientOrdered(s, c);
    assert Behind(s, c, offered[i]);
    forall j | 0 <= j < |offered| && IsFanOutOf(offered[j], n, k) ensures j == i {
      OnePlace(s, offered, n, k, i, j);
    }
  }

  lemma OnePlace(s: State, offered: seq<Entry>, n: Name, k: nat, i: nat, j: nat)
    requires InOrder(s, offered) && k < |HistoryOf(s, n)| && i < |offered| && j < |offered|
    requires IsFanOutOf(offered[i], n, k) && IsFanOutOf(offered[j], n, k)
    ensures j == i
  {
    assert SamePublisher(s, offered[i], offered[j]) && SamePublisher(s, offered[j], offered[i]);
  }

  /** A publish that has ended has been sent exactly once to each client of its snapshot, and to no other client. */
  lemma FanOutReachesEachOnce(s: State, b: ClientId, now: State, c: ClientId)
    requires Reachable(s) && AboutToSend(s, b) && SnapshotThen(s, b, now) && c in now.clients
    requires var pc := s.clients[b].pc;
             pc.number < |HistoryOf(now, pc.name)| && HistoryOf(now, pc.name)[pc.number].status == Sent
    ensures var pc := s.clients[b].pc;
            && (c in s.objects[pc.tid].subs ==> HeardOnce(now, c, pc.name, pc.number))
            && (c !in s.objects[pc.tid].subs ==> !Heard(now, c, pc.name, pc.number))
  {
    var pc := s.clients[b].pc;
    FanOutReachesTheSnapshot(s, b, now, c);
    if c in s.objects[pc.tid].subs {
      var later :| Continue(Step(s, Snapshot(b)), later) == now;
      ReachableStep(s, Snapshot(b));
      ReachableOn(Step(s, Snapshot(b)), later);
      ReachableInv(now);
      ReachableOrdered(now);
      HeardIsHeardOnce(now, c, pc.name, pc.number);
    }
  }

  lemma {:induction false} ReachableOn(s: State, later: seq<Action>)
    requires Reachable(s)
    ensures Reachable(Continue(s, later))
  {
    if later != [] {
      ReachableOn(s, later[..|later| - 1]);
      ReachableStep(Continue(s, later[..|later| - 1]), later[|later| - 1]);
    }
  }
}
