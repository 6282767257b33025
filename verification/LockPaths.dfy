/** The lock operations of every path through the broker and the handlers, and that each path keeps the discipline. */
module LockPaths {
  import opened Model
  import opened Locks

  /** A lock taken, what is taken and given back while it is held, and its release. */
  datatype Section = Section(lock: Lock, mode: Mode, inside: seq<Section>)

  function Ops(sections: seq<Section>): seq<Op>
    decreases sections
  {
    if sections == [] then []
    else
      var first := sections[0];
      [Acquire(first.lock, first.mode)] + (Ops(first.inside) + ([Release(first.lock)] + Ops(sections[1..])))
  }

  predicate Rising(sections: seq<Section>, rank: nat)
    decreases sections
  {
    sections == []
    || (Rank(sections[0].lock) >= rank
        && Rising(sections[0].inside, Rank(sections[0].lock) + 1)
        && Rising(sections[1..], rank))
  }

  lemma {:induction false} RisingIsDisciplined(sections: seq<Section>, rank: nat, held: set<Lock>, rest: seq<Op>)
    requires Rising(sections, rank) && (forall h :: h in held ==> Rank(h) < rank) && Disciplined(held, rest)
    ensures Disciplined(held, Ops(sections) + rest)
    decreases sections
  {
    if sections == [] {
      assert Ops(sections) + rest == rest;
    } else {
      var first, after := sections[0], Ops(sections[1..]) + rest;
      RisingIsDisciplined(sections[1..], rank, held, rest);
      ReleaseLast(first.lock, held, after);
      RisingIsDisciplined(first.inside, Rank(first.lock) + 1, held + {first.lock}, [Release(first.lock)] + after);
      AcquireFirst(first.lock, first.mode, held, Ops(first.inside) + ([Release(first.lock)] + after));
      FirstSection(sections, rest);
    }
  }

  lemma FirstSection(sections: seq<Section>, rest: seq<Op>)
    requires sections != []
    ensures var first := sections[0];
            Ops(sections) + rest
            == [Acquire(first.lock, first.mode)] + (Ops(first.inside) + ([Release(first.lock)] + (Ops(sections[1..]) + rest)))
  {
    var first := sections[0];
    Regroup([Acquire(first.lock, first.mode)], Ops(first.inside), [Release(first.lock)], Ops(sections[1..]), rest);
  }

  lemma Regroup(a: seq<Op>, b: seq<Op>, c: seq<Op>, d: seq<Op>, e: seq<Op>)
    ensures a + (b + (c + d)) + e == a + (b + (c + (d + e)))
  {}

  lemma ReleaseLast(lock: Lock, held: set<Lock>, after: seq<Op>)
    requires Disciplined(held, after) && lock !in held
    ensures Disciplined(held + {lock}, [Release(lock)] + after)
  {
    assert ([Release(lock)] + after)[1..] == after && held + {lock} - {lock} == held;
  }

  lemma AcquireFirst(lock: Lock, mode: Mode, held: set<Lock>, after: seq<Op>)
    requires Disciplined(held + {lock}, after) && forall h :: h in held ==> Rank(h) < Rank(lock)
    ensures Disciplined(held, [Acquire(lock, mode)] + after)
  {
    assert ([Acquire(lock, mode)] + after)[1..] == after;
  }

  // ---------------------------------------------------------------- the paths

  /** One send: the close flag is read under its lock; a full queue then takes the lock again to close. */
  datatype Sent = Sent(c: ClientId, slow: bool)

  /** A topic a cleanup unsubscribes from: its shard, the object found there, and whether it lists the client. */
  datatype Leaving = Leaving(shard: nat, found: Option<nat>, listed: bool)

  datatype Path =
    | CreateTopic(named: bool, underLimit: bool, shard: nat)
    | DeleteTopic(shard: nat, found: Option<nat>, told: seq<Sent>)
    | ListAllTopics(topicsOf: seq<seq<nat>>)
    | CountSubscribers(topicsOf: seq<seq<nat>>)
    | HandleSubscribe(c: ClientId, shard: nat, present: bool, found: Option<nat>, added: bool, sends: seq<Sent>)
    | HandleUnsubscribe(c: ClientId, shard: nat, found: Option<nat>, listed: bool, answer: Sent)
    | HandlePublish(shard: nat, found: Option<nat>, saved: bool, snapshot: seq<Sent>, answer: Sent)
    | Answer(answer: Sent)
    | Cleanup(c: ClientId, topics: seq<Leaving>)
    | WriteLoopFails(c: ClientId)

  function Alone(lock: Lock, mode: Mode): (r: seq<Section>)
    ensures forall rank: nat :: rank <= Rank(lock) ==> Rising(r, rank)
  {
    assert [Section(lock, mode, [])][1..] == [];
    [Section(lock, mode, [])]
  }

  function SendMessage(sent: Sent): seq<Section> {
    Alone(CloseLock(sent.c), Write) + if sent.slow then Alone(CloseLock(sent.c), Write) else []
  }

  function SendAll(sends: seq<Sent>): seq<Section> {
    if sends == [] then [] else SendMessage(sends[0]) + SendAll(sends[1..])
  }

  function TellAndRemove(told: seq<Sent>): seq<Section> {
    if told == [] then []
    else SendMessage(told[0]) + Alone(TopicsLock(told[0].c), Write) + TellAndRemove(told[1..])
  }

  function ScanShards(from: nat): seq<Section>
    decreases SHARD_COUNT - from
  {
    if from >= SHARD_COUNT then [] else Alone(ShardLock(from), Read) + ScanShards(from + 1)
  }

  function ReadTopics(topics: seq<nat>): seq<Section> {
    if topics == [] then [] else Alone(TopicLock(topics[0]), Read) + ReadTopics(topics[1..])
  }

  /** The topics of each shard in turn: read after the shard lock is given back, or while it is held. */
  function VisitShards(topicsOf: seq<seq<nat>>, from: nat, holding: bool): seq<Section>
    decreases |topicsOf|
  {
    if topicsOf == [] then []
    else
      (if holding then [Section(ShardLock(from), Read, ReadTopics(topicsOf[0]))]
       else Alone(ShardLock(from), Read) + ReadTopics(topicsOf[0]))
      + VisitShards(topicsOf[1..], from + 1, holding)
  }

  /** AddSubscriber and RemoveSubscriber alike: the client's own set changes under the topic's lock. */
  function ChangeListing(topic: nat, c: ClientId, changes: bool): (r: seq<Section>)
    ensures forall rank: nat :: rank <= 1 ==> Rising(r, rank)
  {
    var inside := if changes then Alone(TopicsLock(c), Write) else [];
    assert [Section(TopicLock(topic), Write, inside)][1..] == [];
    [Section(TopicLock(topic), Write, inside)]
  }

  function LeaveAll(c: ClientId, topics: seq<Leaving>): seq<Section> {
    if topics == [] then []
    else
      Alone(ShardLock(topics[0].shard), Read)
      + (if topics[0].found.Some? then ChangeListing(topics[0].found.value, c, topics[0].listed) else [])
      + LeaveAll(c, topics[1..])
  }

  function Sections(path: Path): seq<Section> {
    match path
    case CreateTopic(named, underLimit, shard) =>
      if !named then [] else ScanShards(0) + if underLimit then Alone(ShardLock(shard), Write) else []
    case DeleteTopic(shard, found, told) =>
      [Section(ShardLock(shard), Write,
               if found.Some? then [Section(TopicLock(found.value), Write, TellAndRemove(told))] else [])]
    case ListAllTopics(topicsOf) => VisitShards(topicsOf, 0, false)
    case CountSubscribers(topicsOf) => VisitShards(topicsOf, 0, true)
    case HandleSubscribe(c, shard, present, found, added, sends) =>
      Alone(ShardLock(shard), Read)
      + (if present then Alone(ShardLock(shard), Read) else [])
      + (if present && found.Some? then ChangeListing(found.value, c, added) else [])
      + SendAll(sends)
    case HandleUnsubscribe(c, shard, found, listed, answer) =>
      LeaveAll(c, [Leaving(shard, found, listed)]) + SendMessage(answer)
    case HandlePublish(shard, found, saved, snapshot, answer) =>
      Alone(ShardLock(shard), Read)
      + (if found.Some? && saved then Alone(TopicLock(found.value), Read) + SendAll(snapshot) else [])
      + SendMessage(answer)
    case Answer(answer) => SendMessage(answer)
    case Cleanup(c, topics) => Alone(TopicsLock(c), Read) + LeaveAll(c, topics) + Alone(CloseLock(c), Write)
    case WriteLoopFails(c) => Alone(CloseLock(c), Write)
  }

  lemma {:induction false} RisingBoth(a: seq<Section>, b: seq<Section>, rank: nat)
    requires Rising(a, rank) && Rising(b, rank)
    ensures Rising(a + b, rank)
    decreases |a|
  {
    if a == [] {
      assert a + b == b;
    } else {
      RisingBoth(a[1..], b, rank);
      assert (a + b)[1..] == a[1..] + b;
    }
  }

  lemma SendRises(sent: Sent, rank: nat)
    requires rank <= 2
    ensures Rising(SendMessage(sent), rank)
  {
    RisingBoth(Alone(CloseLock(sent.c), Write), if sent.slow then Alone(CloseLock(sent.c), Write) else [], rank);
  }

  lemma {:induction false} SendAllRises(sends: seq<Sent>, rank: nat)
    requires rank <= 2
    ensures Rising(SendAll(sends), rank)
  {
    if sends != [] {
      SendRises(sends[0], rank);
      SendAllRises(sends[1..], rank);
      RisingBoth(SendMessage(sends[0]), SendAll(sends[1..]), rank);
    }
  }

  lemma {:induction false} TellRises(told: seq<Sent>)
    ensures Rising(TellAndRemove(told), 2)
  {
    if told != [] {
      SendRises(told[0], 2);
      TellRises(told[1..]);
      RisingBoth(SendMessage(told[0]), Alone(TopicsLock(told[0].c), Write), 2);
      RisingBoth(SendMessage(told[0]) + Alone(TopicsLock(told[0].c), Write), TellAndRemove(told[1..]), 2);
    }
  }

  lemma {:induction false} ScanRises(from: nat)
    ensures Rising(ScanShards(from), 0)
    decreases SHARD_COUNT - from
  {
    if from < SHARD_COUNT {
      ScanRises(from + 1);
      RisingBoth(Alone(ShardLock(from), Read), ScanShards(from + 1), 0);
    }
  }

  lemma {:induction false} ReadTopicsRises(topics: seq<nat>, rank: nat)
    requires rank <= 1
    ensures Rising(ReadTopics(topics), rank)
  {
    if topics != [] {
      ReadTopicsRises(topics[1..], rank);
      RisingBoth(Alone(TopicLock(topics[0]), Read), ReadTopics(topics[1..]), rank);
    }
  }

  lemma {:induction false} VisitRises(topicsOf: seq<seq<nat>>, from: nat, holding: bool)
    ensures Rising(VisitShards(topicsOf, from, holding), 0)
    decreases |topicsOf|
  {
    if topicsOf != [] {
      VisitRises(topicsOf[1..], from + 1, holding);
      ReadTopicsRises(topicsOf[0], 0);
      ReadTopicsRises(topicsOf[0], 1);
      RisingBoth(Alone(ShardLock(from), Read), ReadTopics(topicsOf[0]), 0);
      RisingBoth(if holding then [Section(ShardLock(from), Read, ReadTopics(topicsOf[0]))]
                 else Alone(ShardLock(from), Read) + ReadTopics(topicsOf[0]),
                 VisitShards(topicsOf[1..], from + 1, holding), 0);
    }
  }

  lemma {:induction false} LeaveRises(c: ClientId, topics: seq<Leaving>)
    ensures Rising(LeaveAll(c, topics), 0)
  {
    if topics != [] {
      var change := if topics[0].found.Some? then ChangeListing(topics[0].found.value, c, topics[0].listed) else [];
      LeaveRises(c, topics[1..]);
      RisingBoth(Alone(ShardLock(topics[0].shard), Read), change, 0);
      RisingBoth(Alone(ShardLock(topics[0].shard), Read) + change, LeaveAll(c, topics[1..]), 0);
    }
  }

  lemma SubscribeRises(path: Path)
    requires path.HandleSubscribe?
    ensures Rising(Sections(path), 0)
  {
    var look := Alone(ShardLock(path.shard), Read);
    var again := if path.present then look else [];
    var change := if path.present && path.found.Some? then ChangeListing(path.found.value, path.c, path.added) else [];
    SendAllRises(path.sends, 0);
    RisingBoth(look, again, 0);
    RisingBoth(look + again, change, 0);
    RisingBoth(look + again + change, SendAll(path.sends), 0);
  }

  lemma PublishRises(path: Path)
    requires path.HandlePublish?
    ensures Rising(Sections(path), 0)
  {
    var look := Alone(ShardLock(path.shard), Read);
    var fanOut := if path.found.Some? && path.saved then Alone(TopicLock(path.found.value), Read) + SendAll(path.snapshot) else [];
    SendAllRises(path.snapshot, 0);
    if path.found.Some? {
      RisingBoth(Alone(TopicLock(path.found.value), Read), SendAll(path.snapshot), 0);
    }
    SendRises(path.answer, 0);
    RisingBoth(look, fanOut, 0);
    RisingBoth(look + fanOut, SendMessage(path.answer), 0);
  }

  lemma CleanupRises(path: Path)
    requires path.Cleanup?
    ensures Rising(Sections(path), 0)
  {
    LeaveRises(path.c, path.topics);
    RisingBoth(Alone(TopicsLock(path.c), Read), LeaveAll(path.c, path.topics), 0);
    RisingBoth(Alone(TopicsLock(path.c), Read) + LeaveAll(path.c, path.topics), Alone(CloseLock(path.c), Write), 0);
  }

  lemma DeleteRises(path: Path)
    requires path.DeleteTopic?
    ensures Rising(Sections(path), 0)
  {
    TellRises(path.told);
    var inside := Sections(path)[0].inside;
    assert Sections(path)[1..] == [] && (inside != [] ==> inside[1..] == []);
    assert Rising(inside, 1);
  }

  lemma PathRises(path: Path)
    ensures Rising(Sections(path), 0)
  {
    match path
    case CreateTopic(_, underLimit, shard) =>
      ScanRises(0);
      RisingBoth(ScanShards(0), if underLimit then Alone(ShardLock(shard), Write) else [], 0);
    case DeleteTopic(_, _, _) => DeleteRises(path);
    case ListAllTopics(topicsOf) => VisitRises(topicsOf, 0, false);
    case CountSubscribers(topicsOf) => VisitRises(topicsOf, 0, true);
    case HandleSubscribe(_, _, _, _, _, _) => SubscribeRises(path);
    case HandleUnsubscribe(c, shard, found, listed, answer) =>
      LeaveRises(c, [Leaving(shard, found, listed)]);
      SendRises(answer, 0);
      RisingBoth(LeaveAll(c, [Leaving(shard, found, listed)]), SendMessage(answer), 0);
    case HandlePublish(_, _, _, _, _) => PublishRises(path);
    case Answer(answer) => SendRises(answer, 0);
    case Cleanup(_, _) => CleanupRises(path);
    case WriteLoopFails(_) =>
  }

  /** Every path takes its locks in rising order shard, topic, subscriber and gives all of them back. */
  lemma PathIsDisciplined(path: Path)
    ensures Disciplined({}, Ops(Sections(path)))
  {
    PathRises(path);
    RisingIsDisciplined(Sections(path), 0, {}, []);
    assert Ops(Sections(path)) + [] == Ops(Sections(path));
  }

  /** Every goroutine that starts follows a path of the broker. */
  ghost predicate FollowPaths(events: seq<Event>) {
    forall e :: e in events && e.Start? ==> exists path :: e.program == Ops(Sections(path))
  }

  /** With any number of goroutines on the broker's paths: while one is unfinished some goroutine can move, and all can finish. */
  lemma BrokerNeverDeadlocks(events: seq<Event>)
    requires FollowPaths(events)
    ensures forall id :: id in Reached(events) && Reached(events)[id].todo != [] ==>
              exists mover :: CanStep(Reached(events), mover)
    ensures exists order :: Finishes(Reached(events), order)
  {
    forall e | e in events && e.Start? ensures Disciplined({}, e.program) {
      var path :| e.program == Ops(Sections(path));
      PathIsDisciplined(path);
    }
    forall id | id in Reached(events) && Reached(events)[id].todo != []
      ensures exists mover :: CanStep(Reached(events), mover)
    {
      NoDeadlock(events, id);
    }
    EveryoneCanFinish(events);
  }

  /** Why a send gives the close lock back before the slow-consumer path: kept, that path would wait for itself. */
  lemma KeptCloseLockBlocks(c: ClientId, id: ThreadId)
    ensures var s: State := map[id := Thread(map[CloseLock(c) := Write],
                                             [Acquire(CloseLock(c), Write), Release(CloseLock(c)), Release(CloseLock(c))], false)];
            !Disciplined({}, Ops([Section(CloseLock(c), Write, Alone(CloseLock(c), Write))]))
            && s[id].todo != [] && forall mover :: !CanStep(s, mover)
  {
    var inside := Alone(CloseLock(c), Write);
    var ops := Ops([Section(CloseLock(c), Write, inside)]);
    assert ops[0] == Acquire(CloseLock(c), Write);
    assert Ops(inside) == [Acquire(CloseLock(c), Write)] + ([] + ([Release(CloseLock(c))] + []));
    assert ops[1..][0] == Acquire(CloseLock(c), Write);
    var s: State := map[id := Thread(map[CloseLock(c) := Write],
                                     [Acquire(CloseLock(c), Write), Release(CloseLock(c)), Release(CloseLock(c))], false)];
    assert Writing(s[id], CloseLock(c));
  }
}
