/**
 What a save that reports failure leaves behind. A push the store refused leaves nothing. One that was stored before
 the trim failed, or whose reply was lost, stays in the list: it is not fanned out, but a replay sends it like any other.
 */
module FailedSaves {
  import opened Model
  import opened Mailbox
  import opened ReplayLog
  import opened Delivery
  import opened DeliveryProofs
  import opened Coverage
  import opened StaleGap

  /** A refused push stores nothing, is recorded nowhere, counts nowhere, and offers its requester one answer and nobody else anything. */
  lemma RefusedPushLeavesNoTrace(s: State, c: ClientId)
    requires c in s.clients && s.clients[c].pc.PubGot?
    ensures var after := Step(s, PushMessage(c, Refused));
            && after.history == s.history && after.lists == s.lists && after.objects == s.objects
            && after.sessions == s.sessions && after.clients.Keys == s.clients.Keys
            && (forall b :: b in s.clients && b != c ==> after.clients[b] == s.clients[b])
            && after.clients[c] == Client(Offer(s.clients[c].box, Answer), Idle)
  {}

  /** The replay holds the push numbered `k`. */
  ghost predicate Holds(fetched: seq<Stored>, k: nat) {
    exists r :: r in fetched && r.number == k
  }

  /** A fetch returns a push if and only if it is among the newest the list still has and the fetch asks for, however its save ended. */
  lemma FetchHoldsIffListed(s: State, name: Name, n: int, k: nat)
    requires Reachable(s) && n >= 1 && k < |HistoryOf(s, name)|
    ensures Holds(Fetched(s, name, n), k) <==> |HistoryOf(s, name)| - k <= Min(n, |StoredList(s, name)|)
  {
    ReachableInv(s);
    assert ListOk(s, name);
    FetchedOk(s, name, n);
    HoldsByPlace(Fetched(s, name, n), |HistoryOf(s, name)|, k);
  }

  lemma HoldsByPlace(fetched: seq<Stored>, upto: nat, k: nat)
    requires |fetched| <= upto && k < upto
    requires forall j :: 0 <= j < |fetched| ==> fetched[j].number == upto - |fetched| + j
    ensures Holds(fetched, k) <==> upto - k <= |fetched|
  {
    if upto - k <= |fetched| {
      assert fetched[k - (upto - |fetched|)].number == k;
    }
  }

  /**
   A push whose save failed and that the list still had at the fetch of `c` is offered to `c` by the end of its replay
   loop, in every run that follows in which `c` is not taken off its object, and remains failed all along.
   */
  lemma FailedSaveIsReplayed(s: State, c: ClientId, now: State, k: nat)
    requires Reachable(s) && AboutToFetch(s, c) && FetchedThen(s, c, now)
    requires var pc := s.clients[c].pc;
             && k < |HistoryOf(s, pc.name)| && HistoryOf(s, pc.name)[k].status == Failed
             && |HistoryOf(s, pc.name)| - k <= Min(pc.lastN, |StoredList(s, pc.name)|)
    requires c in now.clients && !(now.clients[c].pc.Replaying? && now.clients[c].pc.rest != [])
    ensures var name := s.clients[c].pc.name;
            && k < |HistoryOf(now, name)| && HistoryOf(now, name)[k] == HistoryOf(s, name)[k]
            && WasOffered(now, c, name, k)
  {
    var e := SessionAfter(s, c, now);
    FailedSaveIsNotFannedOut(s, now, e.name, k);
    SessionCovers(now, e, k);
  }

  // ---------------------------------------------------------------- it happens

  /** Client 2 has been told that its publish failed; its message is in the list. Client 1 is at `subscriber`. */
  function FailedAt(name: Name, m: Message, subs: set<ClientId>, subscriber: Pc, entries: seq<Entry>, sessions: set<Session>): State {
    State([Object(name, subs, 0)], map[name := 0],
          map[1 := Client(BoxOf(entries), subscriber), 2 := Client(BoxOf([Answer]), Idle)],
          map[name := [Push(0, 2, m, Failed)]], map[name := [Stored(0, m)]], map[], sessions)
  }

  lemma Reach(s: State, a: Action, t: State)
    requires Reachable(s) && Step(s, a) == t
    ensures Reachable(t)
  {
    ReachableStep(s, a);
  }

  lemma BothConnect()
    ensures Reachable(START.(clients := Two(Idle, [], Idle)))
  {
    assert Run([]) == START;
    var one := START.(clients := map[1 := Client(NewBox(), Idle)]);
    Reach(START, Connect(1), one);
    Reach(one, Connect(2), START.(clients := Two(Idle, [], Idle)));
  }

  lemma FirstTopic(name: Name)
    ensures Step(START.(clients := Two(Idle, [], Idle)), Create(name))
            == START.(clients := Two(Idle, [], Idle), objects := [Object(name, {}, 0)], live := map[name := 0])
  {}

  lemma PublisherFinds(name: Name, m: Message)
    ensures Step(START.(clients := Two(Idle, [], Idle), objects := [Object(name, {}, 0)], live := map[name := 0]),
                 FindToPublish(2, name, m))
            == AfterFind(name, m)
  {
    EqualStates(Step(START.(clients := Two(Idle, [], Idle), objects := [Object(name, {}, 0)], live := map[name := 0]),
                     FindToPublish(2, name, m)), AfterFind(name, m));
  }

  lemma FoundIsReachable(name: Name, m: Message)
    ensures Reachable(AfterFind(name, m))
  {
    BothConnect();
    FirstTopic(name);
    ReachableStep(START.(clients := Two(Idle, [], Idle)), Create(name));
    PublisherFinds(name, m);
    ReachableStep(START.(clients := Two(Idle, [], Idle), objects := [Object(name, {}, 0)], live := map[name := 0]),
                  FindToPublish(2, name, m));
  }

  function PushedOnce(name: Name, m: Message): State {
    State([Object(name, {}, 0)], map[name := 0], Two(Idle, [], PubPushed(name, 0, m, 0)),
          map[name := [Push(0, 2, m, Pushed)]], map[name := [Stored(0, m)]], map[], {})
  }

  lemma FirstPush(name: Name, m: Message)
    ensures Step(AfterFind(name, m), PushMessage(2, Applied)) == PushedOnce(name, m)
  {
    assert HistoryOf(AfterFind(name, m), name) == [] && [] + [Push(0, 2, m, Pushed)] == [Push(0, 2, m, Pushed)];
    assert StoredList(AfterFind(name, m), name) == [] && LPush([], Stored(0, m)) == [Stored(0, m)];
    EqualStates(DoPush(AfterFind(name, m), 2, Applied), PushedOnce(name, m));
  }

  lemma TrimFails(name: Name, m: Message)
    ensures Step(PushedOnce(name, m), TrimList(2, Refused)) == FailedAt(name, m, {}, Idle, [], {})
  {
    assert SetStatus([Push(0, 2, m, Pushed)], 0, Failed) == [Push(0, 2, m, Failed)];
    assert Offer(BoxOf([]), Answer) == BoxOf([Answer]);
    EqualStates(DoTrim(PushedOnce(name, m), 2, Refused), FailedAt(name, m, {}, Idle, [], {}));
  }

  lemma PushedIsReachable(name: Name, m: Message)
    ensures Reachable(PushedOnce(name, m))
  {
    FoundIsReachable(name, m);
    ReachableStep(AfterFind(name, m), PushMessage(2, Applied));
    FirstPush(name, m);
  }

  lemma FailedSaveIsStored(name: Name, m: Message)
    ensures Reachable(FailedAt(name, m, {}, Idle, [], {}))
  {
    PushedIsReachable(name, m);
    ReachableStep(PushedOnce(name, m), TrimList(2, Refused));
    TrimFails(name, m);
  }

  lemma SubscriberAdds(name: Name, m: Message)
    ensures Step(FailedAt(name, m, {}, SubGot(name, 0, 1), [], {}), Add(1)) == FailedAt(name, m, {1}, SubAdded(name, 0, 1), [], {})
  {
    EqualStates(DoAdd(FailedAt(name, m, {}, SubGot(name, 0, 1), [], {}), 1), FailedAt(name, m, {1}, SubAdded(name, 0, 1), [], {}));
  }

  lemma SubscriberFetches(name: Name, m: Message)
    ensures Step(FailedAt(name, m, {1}, SubAdded(name, 0, 1), [], {}), FetchReplay(1, Applied))
            == FailedAt(name, m, {1}, Replaying(name, [Stored(0, m)]), [], {Session(1, name, 0, 0, 1)})
  {
    var s := FailedAt(name, m, {1}, SubAdded(name, 0, 1), [], {});
    assert LRange([Stored(0, m)], 0, 0) == [Stored(0, m)];
    assert Fetched(s, name, 1) == [Stored(0, m)];
    EqualStates(DoFetch(s, 1, Applied),
                FailedAt(name, m, {1}, Replaying(name, [Stored(0, m)]), [], {Session(1, name, 0, 0, 1)}));
  }

  lemma SubscriberIsSent(name: Name, m: Message)
    ensures var entry := Item(name, 0, m, Replay);
            Step(FailedAt(name, m, {1}, Replaying(name, [Stored(0, m)]), [], {Session(1, name, 0, 0, 1)}), ReplayOne(1))
            == FailedAt(name, m, {1}, Replaying(name, []), [entry], {Session(1, name, 0, 0, 1)})
  {
    var entry := Item(name, 0, m, Replay);
    var s := FailedAt(name, m, {1}, Replaying(name, [Stored(0, m)]), [], {Session(1, name, 0, 0, 1)});
    assert [Stored(0, m)][1..] == [];
    assert Offer(BoxOf([]), entry) == BoxOf([entry]);
    EqualStates(DoReplayOne(s, 1), FailedAt(name, m, {1}, Replaying(name, []), [entry], {Session(1, name, 0, 0, 1)}));
  }

  /**
   The push is stored, its trim is refused, the publisher is told that the publish failed; a client that subscribes then
   and asks for one message is queued that message.
   */
  lemma FailedSaveReachesASubscriber(name: Name, m: Message)
    ensures exists s :: && Reachable(s) && HistoryOf(s, name) == [Push(0, 2, m, Failed)] && s.objects == [Object(name, {1}, 0)]
                        && s.clients.Keys == {1, 2} && s.clients[2].box.offered == [Answer]
                        && s.clients[1].box.queue == [Item(name, 0, m, Replay)]
  {
    FailedSaveIsStored(name, m);
    FindsThenAdds(name, m);
    AddsThenFetches(name, m);
  }

  lemma SubscriberFinds(name: Name, m: Message)
    ensures Step(FailedAt(name, m, {}, Idle, [], {}), FindToSubscribe(1, name, 1))
            == FailedAt(name, m, {}, SubGot(name, 0, 1), [], {})
  {
    EqualStates(Step(FailedAt(name, m, {}, Idle, [], {}), FindToSubscribe(1, name, 1)),
                FailedAt(name, m, {}, SubGot(name, 0, 1), [], {}));
  }

  lemma FindsThenAdds(name: Name, m: Message)
    requires Reachable(FailedAt(name, m, {}, Idle, [], {}))
    ensures Reachable(FailedAt(name, m, {1}, SubAdded(name, 0, 1), [], {}))
  {
    ReachableStep(FailedAt(name, m, {}, Idle, [], {}), FindToSubscribe(1, name, 1));
    SubscriberFinds(name, m);
    ReachableStep(FailedAt(name, m, {}, SubGot(name, 0, 1), [], {}), Add(1));
    SubscriberAdds(name, m);
  }

  lemma AddsThenFetches(name: Name, m: Message)
    requires Reachable(FailedAt(name, m, {1}, SubAdded(name, 0, 1), [], {}))
    ensures Reachable(FailedAt(name, m, {1}, Replaying(name, []), [Item(name, 0, m, Replay)], {Session(1, name, 0, 0, 1)}))
  {
    ReachableStep(FailedAt(name, m, {1}, SubAdded(name, 0, 1), [], {}), FetchReplay(1, Applied));
    SubscriberFetches(name, m);
    ReachableStep(FailedAt(name, m, {1}, Replaying(name, [Stored(0, m)]), [], {Session(1, name, 0, 0, 1)}), ReplayOne(1));
    SubscriberIsSent(name, m);
  }
}
