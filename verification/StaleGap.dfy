/** Why the no-gap guarantee speaks of pushes through the subscriber's own topic object: a run that shows the others can be missed. */
module StaleGap {
  import opened Model
  import opened Mailbox
  import opened ReplayLog
  import opened Delivery
  import opened DeliveryProofs
  import opened Coverage

  function Steps(s: State, actions: seq<Action>): State
    decreases |actions|
  {
    if actions == [] then s else Steps(Step(s, actions[0]), actions[1..])
  }

  lemma {:induction false} RunOn(before: seq<Action>, later: seq<Action>)
    ensures Run(before + later) == Steps(Run(before), later)
    decreases |later|
  {
    if later == [] {
      assert before + later == before;
    } else {
      var one := before + [later[0]];
      assert one[..|before|] == before && before + later == one + later[1..];
      RunOn(one, later[1..]);
    }
  }

  lemma Then(s: State, a: Action, rest: seq<Action>, next: State)
    requires Step(s, a) == next
    ensures Steps(s, [a] + rest) == Steps(next, rest)
  {
    assert ([a] + rest)[1..] == rest;
  }

  /**
   Client 2 finds the topic to publish to, the topic is deleted and created again, and client 1 subscribes to the
   new one, up to its replay fetch.
   */
  function Before(name: Name, m: Message): seq<Action> {
    [Connect(1), Connect(2), Create(name), FindToPublish(2, name, m), Unlink(name), Create(name),
     FindToSubscribe(1, name, 1), Add(1)]
  }

  /** Client 1's subscribe ends; client 2's publish through the old object then runs without a failure. */
  function Later(): seq<Action> {
    [ReplayDone(1), PushMessage(2, Applied), TrimList(2, Applied), Count(2), Snapshot(2), SendDone(2)]
  }

  function BoxOf(answers: seq<Entry>): Box<Entry> {
    NewBox<Entry>().(queue := answers, offered := answers, accepted := answers)
  }

  function Two(subscriber: Pc, answers: seq<Entry>, publisher: Pc): map<ClientId, Client> {
    map[1 := Client(BoxOf(answers), subscriber), 2 := Client(BoxOf([]), publisher)]
  }

  function AfterFind(name: Name, m: Message): State {
    START.(objects := [Object(name, {}, 0)], live := map[name := 0], clients := Two(Idle, [], PubGot(name, 0, m)))
  }

  function Recreated(name: Name, m: Message, subscriber: Pc, subs: set<ClientId>): State {
    START.(objects := [Object(name, {}, 0), Object(name, subs, 0)], live := map[name := 1],
           clients := Two(subscriber, [], PubGot(name, 0, m)))
  }

  lemma Connecting(name: Name, m: Message, rest: seq<Action>)
    ensures Steps(START, [Connect(1)] + ([Connect(2)] + rest)) == Steps(START.(clients := Two(Idle, [], Idle)), rest)
  {
    var one := START.(clients := map[1 := Client(NewBox(), Idle)]);
    Then(START, Connect(1), [Connect(2)] + rest, one);
    Then(one, Connect(2), rest, START.(clients := Two(Idle, [], Idle)));
  }

  lemma Finding(name: Name, m: Message, rest: seq<Action>)
    ensures Steps(START.(clients := Two(Idle, [], Idle)), [Create(name)] + ([FindToPublish(2, name, m)] + rest))
            == Steps(AfterFind(name, m), rest)
  {
    var s := START.(clients := Two(Idle, [], Idle));
    var created := s.(objects := [Object(name, {}, 0)], live := map[name := 0]);
    Then(s, Create(name), [FindToPublish(2, name, m)] + rest, created);
    Then(created, FindToPublish(2, name, m), rest, AfterFind(name, m));
  }

  lemma Recreating(name: Name, m: Message, rest: seq<Action>)
    ensures Steps(AfterFind(name, m), [Unlink(name)] + ([Create(name)] + rest)) == Steps(Recreated(name, m, Idle, {}), rest)
  {
    var s := AfterFind(name, m);
    Then(s, Unlink(name), [Create(name)] + rest, s.(live := map[]));
    Then(s.(live := map[]), Create(name), rest, Recreated(name, m, Idle, {}));
  }

  lemma Adding(name: Name, m: Message)
    ensures Step(Recreated(name, m, SubGot(name, 1, 1), {}), Add(1)) == Recreated(name, m, SubAdded(name, 1, 1), {1})
  {
    EqualStates(DoAdd(Recreated(name, m, SubGot(name, 1, 1), {}), 1), Recreated(name, m, SubAdded(name, 1, 1), {1}));
  }

  lemma Joining(name: Name, m: Message)
    ensures Steps(Recreated(name, m, Idle, {}), [FindToSubscribe(1, name, 1)] + ([Add(1)] + []))
            == Recreated(name, m, SubAdded(name, 1, 1), {1})
  {
    Adding(name, m);
    Chain(Recreated(name, m, Idle, {}), FindToSubscribe(1, name, 1), Recreated(name, m, SubGot(name, 1, 1), {}),
          Add(1), Recreated(name, m, SubAdded(name, 1, 1), {1}), []);
  }

  lemma BeforeRun(name: Name, m: Message)
    ensures Run(Before(name, m)) == Recreated(name, m, SubAdded(name, 1, 1), {1})
  {
    var joins := [FindToSubscribe(1, name, 1)] + ([Add(1)] + []);
    var recreates := [Unlink(name)] + ([Create(name)] + joins);
    var finds := [Create(name)] + ([FindToPublish(2, name, m)] + recreates);
    RunOn([], Before(name, m));
    assert [] + Before(name, m) == Before(name, m);
    assert Before(name, m) == [Connect(1)] + ([Connect(2)] + finds);
    Connecting(name, m, finds);
    Finding(name, m, recreates);
    Recreating(name, m, joins);
    Joining(name, m);
  }

  /** The publish through the old object, `status` far: nobody is listed there, so nobody hears of it. */
  function Published(name: Name, m: Message, status: Status, publisher: Pc): State {
    State([Object(name, {}, if status == Pushed || status == Trimmed then 0 else 1), Object(name, {1}, 0)],
          map[name := 1],
          map[1 := Client(BoxOf([Answer]), Idle),
              2 := Client(BoxOf(if status == Sent then [Answer] else []), publisher)],
          map[name := [Push(0, 2, m, status)]],
          map[name := [Stored(0, m)]],
          map[],
          {Session(1, name, 1, 0, 0)})
  }

  function Replayed(name: Name, m: Message): State {
    Recreated(name, m, Idle, {1}).(clients := Two(Idle, [Answer], PubGot(name, 0, m)), sessions := {Session(1, name, 1, 0, 0)})
  }

  lemma Fetching(name: Name, m: Message)
    ensures Step(Recreated(name, m, SubAdded(name, 1, 1), {1}), FetchReplay(1, Applied))
            == Recreated(name, m, Replaying(name, []), {1}).(sessions := {Session(1, name, 1, 0, 0)})
  {
    var s := Recreated(name, m, SubAdded(name, 1, 1), {1});
    assert Fetched(s, name, 1) == [];
  }

  lemma EqualStates(s: State, t: State)
    requires s.objects == t.objects && s.live == t.live && s.clients == t.clients && s.history == t.history
    requires s.lists == t.lists && s.base == t.base && s.sessions == t.sessions
    ensures s == t
  {}

  lemma Answering(name: Name, m: Message)
    ensures Step(Recreated(name, m, Replaying(name, []), {1}).(sessions := {Session(1, name, 1, 0, 0)}), ReplayDone(1))
            == Replayed(name, m)
  {
    assert Offer(BoxOf([]), Answer) == BoxOf([Answer]);
    EqualStates(Step(Recreated(name, m, Replaying(name, []), {1}).(sessions := {Session(1, name, 1, 0, 0)}), ReplayDone(1)),
                Replayed(name, m));
  }

  lemma Pushing(name: Name, m: Message)
    ensures Step(Replayed(name, m), PushMessage(2, Applied)) == Published(name, m, Pushed, PubPushed(name, 0, m, 0))
  {
    assert HistoryOf(Replayed(name, m), name) == [] && [] + [Push(0, 2, m, Pushed)] == [Push(0, 2, m, Pushed)];
    assert StoredList(Replayed(name, m), name) == [] && LPush([], Stored(0, m)) == [Stored(0, m)];
    EqualStates(DoPush(Replayed(name, m), 2, Applied), Published(name, m, Pushed, PubPushed(name, 0, m, 0)));
  }

  lemma Trimming(name: Name, m: Message)
    ensures Step(Published(name, m, Pushed, PubPushed(name, 0, m, 0)), TrimList(2, Applied))
            == Published(name, m, Trimmed, PubTrimmed(name, 0, m, 0))
  {
    assert SetStatus([Push(0, 2, m, Pushed)], 0, Trimmed) == [Push(0, 2, m, Trimmed)];
    assert LTrim([Stored(0, m)], 0, REPLAY_BUFFER_SIZE - 1) == [Stored(0, m)];
    EqualStates(DoTrim(Published(name, m, Pushed, PubPushed(name, 0, m, 0)), 2, Applied),
                Published(name, m, Trimmed, PubTrimmed(name, 0, m, 0)));
  }

  lemma Counting(name: Name, m: Message)
    ensures Step(Published(name, m, Trimmed, PubTrimmed(name, 0, m, 0)), Count(2))
            == Published(name, m, Counted, PubCounted(name, 0, m, 0))
  {
    assert SetStatus([Push(0, 2, m, Trimmed)], 0, Counted) == [Push(0, 2, m, Counted)];
    EqualStates(DoCount(Published(name, m, Trimmed, PubTrimmed(name, 0, m, 0)), 2),
                Published(name, m, Counted, PubCounted(name, 0, m, 0)));
  }

  lemma TakingSnapshot(name: Name, m: Message)
    ensures Step(Published(name, m, Counted, PubCounted(name, 0, m, 0)), Snapshot(2))
            == Published(name, m, Sending, PubSending(name, 0, m, 0, {}))
  {
    assert SetStatus([Push(0, 2, m, Counted)], 0, Sending) == [Push(0, 2, m, Sending)];
    EqualStates(DoSnapshot(Published(name, m, Counted, PubCounted(name, 0, m, 0)), 2),
                Published(name, m, Sending, PubSending(name, 0, m, 0, {})));
  }

  lemma Ending(name: Name, m: Message)
    ensures Step(Published(name, m, Sending, PubSending(name, 0, m, 0, {})), SendDone(2)) == Published(name, m, Sent, Idle)
  {
    assert Offer(BoxOf([]), Answer) == BoxOf([Answer]);
    assert SetStatus([Push(0, 2, m, Sending)], 0, Sent) == [Push(0, 2, m, Sent)];
    EqualStates(DoSendDone(Published(name, m, Sending, PubSending(name, 0, m, 0, {})), 2), Published(name, m, Sent, Idle));
  }

  /** Steps one after the other, each from the state the one before led to. */
  lemma Chain(s: State, a: Action, t: State, b: Action, u: State, rest: seq<Action>)
    requires Step(s, a) == t && Step(t, b) == u
    ensures Steps(s, [a] + ([b] + rest)) == Steps(u, rest)
  {
    Then(s, a, [b] + rest, t);
    Then(t, b, rest, u);
  }

  lemma SavesMessage(name: Name, m: Message, rest: seq<Action>)
    ensures Steps(Replayed(name, m), [PushMessage(2, Applied)] + ([TrimList(2, Applied)] + rest))
            == Steps(Published(name, m, Trimmed, PubTrimmed(name, 0, m, 0)), rest)
  {
    Pushing(name, m);
    Trimming(name, m);
    Chain(Replayed(name, m), PushMessage(2, Applied), Published(name, m, Pushed, PubPushed(name, 0, m, 0)),
          TrimList(2, Applied), Published(name, m, Trimmed, PubTrimmed(name, 0, m, 0)), rest);
  }

  lemma CountsAndLists(name: Name, m: Message, rest: seq<Action>)
    ensures Steps(Published(name, m, Trimmed, PubTrimmed(name, 0, m, 0)), [Count(2)] + ([Snapshot(2)] + rest))
            == Steps(Published(name, m, Sending, PubSending(name, 0, m, 0, {})), rest)
  {
    Counting(name, m);
    TakingSnapshot(name, m);
    Chain(Published(name, m, Trimmed, PubTrimmed(name, 0, m, 0)), Count(2),
          Published(name, m, Counted, PubCounted(name, 0, m, 0)),
          Snapshot(2), Published(name, m, Sending, PubSending(name, 0, m, 0, {})), rest);
  }

  lemma Publishes(name: Name, m: Message)
    ensures Steps(Replayed(name, m), Later()[1..]) == Published(name, m, Sent, Idle)
  {
    var counts := [Count(2)] + ([Snapshot(2)] + [SendDone(2)]);
    assert Later()[1..] == [PushMessage(2, Applied)] + ([TrimList(2, Applied)] + counts);
    SavesMessage(name, m, counts);
    CountsAndLists(name, m, [SendDone(2)]);
    Ending(name, m);
    Then(Published(name, m, Sending, PubSending(name, 0, m, 0, {})), SendDone(2), [], Published(name, m, Sent, Idle));
  }

  lemma WholeRun(name: Name, m: Message)
    ensures Run(Before(name, m) + [FetchReplay(1, Applied)] + Later()) == Published(name, m, Sent, Idle)
  {
    var fetched := Before(name, m) + [FetchReplay(1, Applied)];
    assert Later() == [ReplayDone(1)] + Later()[1..];
    BeforeRun(name, m);
    assert fetched[..|fetched| - 1] == Before(name, m);
    Fetching(name, m);
    RunOn(fetched, Later());
    Answering(name, m);
    Then(Run(fetched), ReplayDone(1), Later()[1..], Replayed(name, m));
    Publishes(name, m);
  }

  /**
   A publisher that found the topic before a deletion stores its message under the name after the new topic's
   subscriber has fetched its replay, and sends it to the old topic's subscribers: client 1, subscribed all along and
   never taken off, is not offered it although the publish ends well.
   */
  lemma StalePublisherLeavesGap(name: Name, m: Message)
    ensures var s, now := Run(Before(name, m)), Run(Before(name, m) + [FetchReplay(1, Applied)] + Later());
            && 1 in s.clients && s.clients[1].pc == SubAdded(name, 1, 1) && |s.objects| == 2 && 1 in s.objects[1].subs
            && (forall a :: a in Later() ==> !TakesOff(a, 1, 1))
            && HistoryOf(s, name) == [] && HistoryOf(now, name) == [Push(0, 2, m, Sent)]
            && 1 in now.clients && now.clients[1].pc == Idle && !WasOffered(now, 1, name, 0)
  {
    BeforeRun(name, m);
    WholeRun(name, m);
  }
}
