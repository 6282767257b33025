/** Which locks the paths do take, and what is done under which: what the discipline alone would not notice missing. */
module LockGuards {
  import opened Model
  import opened Locks
  import opened LockPaths

  /** The sections, or what is inside them, take the lock in the mode. */
  predicate Takes(sections: seq<Section>, lock: Lock, mode: Mode)
    decreases sections
  {
    sections != []
    && ((sections[0].lock == lock && sections[0].mode == mode)
        || Takes(sections[0].inside, lock, mode)
        || Takes(sections[1..], lock, mode))
  }

  /** A client's own set of topics is changed only under the lock of a topic held for writing. */
  predicate SetsGuarded(sections: seq<Section>, underTopic: bool)
    decreases sections
  {
    sections == []
    || ((sections[0].lock.TopicsLock? && sections[0].mode == Write ==> underTopic)
        && SetsGuarded(sections[0].inside, underTopic || (sections[0].lock.TopicLock? && sections[0].mode == Write))
        && SetsGuarded(sections[1..], underTopic))
  }

  lemma {:induction false} TakesEither(a: seq<Section>, b: seq<Section>, lock: Lock, mode: Mode)
    ensures Takes(a + b, lock, mode) <==> Takes(a, lock, mode) || Takes(b, lock, mode)
    decreases |a|
  {
    if a == [] {
      assert a + b == b;
    } else {
      TakesEither(a[1..], b, lock, mode);
      assert (a + b)[1..] == a[1..] + b;
    }
  }

  lemma {:induction false} GuardedBoth(a: seq<Section>, b: seq<Section>, underTopic: bool)
    requires SetsGuarded(a, underTopic) && SetsGuarded(b, underTopic)
    ensures SetsGuarded(a + b, underTopic)
    decreases |a|
  {
    if a == [] {
      assert a + b == b;
    } else {
      GuardedBoth(a[1..], b, underTopic);
      assert (a + b)[1..] == a[1..] + b;
    }
  }

  lemma AloneTakes(lock: Lock, mode: Mode)
    ensures Takes(Alone(lock, mode), lock, mode)
  {}

  lemma AloneGuarded(lock: Lock, mode: Mode, underTopic: bool)
    requires lock.TopicsLock? && mode == Write ==> underTopic
    ensures SetsGuarded(Alone(lock, mode), underTopic)
  {
    assert Alone(lock, mode)[1..] == [];
  }

  // ---------------------------------------------------------------- the parts of the paths

  lemma SendTakes(sent: Sent, underTopic: bool)
    ensures Takes(SendMessage(sent), CloseLock(sent.c), Write) && SetsGuarded(SendMessage(sent), underTopic)
  {
    var lock := Alone(CloseLock(sent.c), Write);
    AloneTakes(CloseLock(sent.c), Write);
    AloneGuarded(CloseLock(sent.c), Write, underTopic);
    TakesEither(lock, if sent.slow then lock else [], CloseLock(sent.c), Write);
    GuardedBoth(lock, if sent.slow then lock else [], underTopic);
  }

  /** A slow send takes the close lock a second time, after giving it back. */
  lemma SlowSendTakesTwice(sent: Sent)
    ensures |SendMessage(sent)| == (if sent.slow then 2 else 1)
    ensures forall i :: 0 <= i < |SendMessage(sent)| ==> SendMessage(sent)[i] == Section(CloseLock(sent.c), Write, [])
  {}

  lemma {:induction false} SendAllTakes(sends: seq<Sent>)
    ensures forall i :: 0 <= i < |sends| ==> Takes(SendAll(sends), CloseLock(sends[i].c), Write)
    ensures SetsGuarded(SendAll(sends), false)
  {
    if sends != [] {
      SendTakes(sends[0], false);
      SendAllTakes(sends[1..]);
      GuardedBoth(SendMessage(sends[0]), SendAll(sends[1..]), false);
      forall i | 0 <= i < |sends| ensures Takes(SendAll(sends), CloseLock(sends[i].c), Write) {
        TakesEither(SendMessage(sends[0]), SendAll(sends[1..]), CloseLock(sends[i].c), Write);
        assert i > 0 ==> sends[i] == sends[1..][i - 1];
      }
    }
  }

  lemma {:induction false} TellTakes(told: seq<Sent>)
    ensures forall i :: 0 <= i < |told| ==> Takes(TellAndRemove(told), CloseLock(told[i].c), Write)
    ensures forall i :: 0 <= i < |told| ==> Takes(TellAndRemove(told), TopicsLock(told[i].c), Write)
    ensures SetsGuarded(TellAndRemove(told), true)
  {
    if told != [] {
      var first, own, rest := SendMessage(told[0]), Alone(TopicsLock(told[0].c), Write), TellAndRemove(told[1..]);
      SendTakes(told[0], true);
      AloneTakes(TopicsLock(told[0].c), Write);
      AloneGuarded(TopicsLock(told[0].c), Write, true);
      TellTakes(told[1..]);
      GuardedBoth(first, own, true);
      GuardedBoth(first + own, rest, true);
      forall i | 0 <= i < |told|
        ensures Takes(TellAndRemove(told), CloseLock(told[i].c), Write) && Takes(TellAndRemove(told), TopicsLock(told[i].c), Write)
      {
        TellOneTakes(told, i);
      }
    }
  }

  lemma TellOneTakes(told: seq<Sent>, i: nat)
    requires i < |told|
    requires i > 0 ==> Takes(TellAndRemove(told[1..]), CloseLock(told[i].c), Write) && Takes(TellAndRemove(told[1..]), TopicsLock(told[i].c), Write)
    ensures Takes(TellAndRemove(told), CloseLock(told[i].c), Write) && Takes(TellAndRemove(told), TopicsLock(told[i].c), Write)
  {
    var first, own, rest := SendMessage(told[0]), Alone(TopicsLock(told[0].c), Write), TellAndRemove(told[1..]);
    SendTakes(told[0], true);
    AloneTakes(TopicsLock(told[0].c), Write);
    forall lock | lock == CloseLock(told[i].c) || lock == TopicsLock(told[i].c) ensures Takes(first + own + rest, lock, Write) {
      TakesEither(first, own, lock, Write);
      TakesEither(first + own, rest, lock, Write);
    }
  }

  lemma ChangeTakes(topic: nat, c: ClientId, changes: bool)
    ensures Takes(ChangeListing(topic, c, changes), TopicLock(topic), Write)
    ensures changes ==> Takes(ChangeListing(topic, c, changes), TopicsLock(c), Write)
    ensures SetsGuarded(ChangeListing(topic, c, changes), false)
  {
    AloneTakes(TopicsLock(c), Write);
    AloneGuarded(TopicsLock(c), Write, true);
    assert ChangeListing(topic, c, changes)[1..] == [];
  }

  lemma {:induction false} ScanTakes(from: nat, i: nat)
    requires from <= i < SHARD_COUNT
    ensures Takes(ScanShards(from), ShardLock(i), Read)
    decreases SHARD_COUNT - from
  {
    TakesEither(Alone(ShardLock(from), Read), ScanShards(from + 1), ShardLock(i), Read);
    if from == i {
      AloneTakes(ShardLock(i), Read);
    } else {
      ScanTakes(from + 1, i);
    }
  }

  // ---------------------------------------------------------------- the paths

  /** A creation that is under the limit reads all 32 tables, then takes its own shard's lock for writing. */
  lemma CreationTakes(shard: nat)
    ensures var path := Sections(CreateTopic(true, true, shard));
            (forall i :: 0 <= i < 32 ==> Takes(path, ShardLock(i), Read)) && path[|path| - 1] == Section(ShardLock(shard), Write, [])
  {
    forall i | 0 <= i < 32 ensures Takes(Sections(CreateTopic(true, true, shard)), ShardLock(i), Read) {
      ScanTakes(0, i);
      TakesEither(ScanShards(0), Alone(ShardLock(shard), Write), ShardLock(i), Read);
    }
  }

  /**
   A deletion does everything under its shard's lock, and tells each subscriber and changes its set under the topic's lock
   as well, both held for writing.
   */
  lemma DeletionTakes(shard: nat, topic: nat, told: seq<Sent>)
    ensures var path := Sections(DeleteTopic(shard, Some(topic), told));
            && |path| == 1 && path[0].lock == ShardLock(shard) && path[0].mode == Write
            && |path[0].inside| == 1 && path[0].inside[0].lock == TopicLock(topic) && path[0].inside[0].mode == Write
            && (forall i :: 0 <= i < |told| ==>
                  && Takes(path[0].inside[0].inside, CloseLock(told[i].c), Write)
                  && Takes(path[0].inside[0].inside, TopicsLock(told[i].c), Write))
            && SetsGuarded(path, false)
  {
    TellTakes(told);
    var path := Sections(DeleteTopic(shard, Some(topic), told));
    assert path[1..] == [] && path[0].inside[1..] == [];
    assert SetsGuarded(path[0].inside, false);
  }

  /** A publish that was saved reads the topic's list under its lock, and no send is made under any lock but the close lock. */
  lemma PublishTakes(shard: nat, topic: nat, snapshot: seq<Sent>, answer: Sent)
    ensures var path := Sections(HandlePublish(shard, Some(topic), true, snapshot, answer));
            && Takes(path, ShardLock(shard), Read) && Takes(path, TopicLock(topic), Read) && Takes(path, CloseLock(answer.c), Write)
            && (forall i :: 0 <= i < |snapshot| ==> Takes(path, CloseLock(snapshot[i].c), Write))
            && SetsGuarded(path, false)
  {
    var look, read, sends := Alone(ShardLock(shard), Read), Alone(TopicLock(topic), Read), SendAll(snapshot);
    var last := SendMessage(answer);
    AloneTakes(ShardLock(shard), Read);
    AloneTakes(TopicLock(topic), Read);
    AloneGuarded(ShardLock(shard), Read, false);
    AloneGuarded(TopicLock(topic), Read, false);
    SendAllTakes(snapshot);
    SendTakes(answer, false);
    GuardedBoth(read, sends, false);
    GuardedBoth(look, read + sends, false);
    GuardedBoth(look + (read + sends), last, false);
    forall lock, mode ensures Takes(look + (read + sends) + last, lock, mode)
                              <==> Takes(look, lock, mode) || Takes(read, lock, mode) || Takes(sends, lock, mode) || Takes(last, lock, mode)
    {
      TakesEither(read, sends, lock, mode);
      TakesEither(look, read + sends, lock, mode);
      TakesEither(look + (read + sends), last, lock, mode);
    }
  }

  /** A subscribe that finds its topic changes the listing under the topic's lock and, if it adds the client, its set inside. */
  lemma SubscribeTakes(c: ClientId, shard: nat, topic: nat, added: bool, sends: seq<Sent>)
    ensures var path := Sections(HandleSubscribe(c, shard, true, Some(topic), added, sends));
            && Takes(path, ShardLock(shard), Read) && Takes(path, TopicLock(topic), Write)
            && (added ==> Takes(path, TopicsLock(c), Write))
            && (forall i :: 0 <= i < |sends| ==> Takes(path, CloseLock(sends[i].c), Write))
            && SetsGuarded(path, false)
  {
    var look, change, all := Alone(ShardLock(shard), Read), ChangeListing(topic, c, added), SendAll(sends);
    AloneTakes(ShardLock(shard), Read);
    AloneGuarded(ShardLock(shard), Read, false);
    ChangeTakes(topic, c, added);
    SendAllTakes(sends);
    GuardedBoth(look, look, false);
    GuardedBoth(look + look, change, false);
    GuardedBoth(look + look + change, all, false);
    forall lock, mode ensures Takes(look + look + change + all, lock, mode)
                              <==> Takes(look, lock, mode) || Takes(change, lock, mode) || Takes(all, lock, mode)
    {
      TakesEither(look, look, lock, mode);
      TakesEither(look + look, change, lock, mode);
      TakesEither(look + look + change, all, lock, mode);
    }
  }

  lemma {:induction false} LeaveTakes(c: ClientId, topics: seq<Leaving>, i: nat)
    requires i < |topics|
    ensures Takes(LeaveAll(c, topics), ShardLock(topics[i].shard), Read)
    ensures topics[i].found.Some? ==> Takes(LeaveAll(c, topics), TopicLock(topics[i].found.value), Write)
    ensures topics[i].found.Some? && topics[i].listed ==> Takes(LeaveAll(c, topics), TopicsLock(c), Write)
    decreases topics
  {
    var look := Alone(ShardLock(topics[0].shard), Read);
    var change := if topics[0].found.Some? then ChangeListing(topics[0].found.value, c, topics[0].listed) else [];
    AloneTakes(ShardLock(topics[0].shard), Read);
    if topics[0].found.Some? {
      ChangeTakes(topics[0].found.value, c, topics[0].listed);
    }
    if i > 0 {
      LeaveTakes(c, topics[1..], i - 1);
    }
    forall lock, mode ensures Takes(LeaveAll(c, topics), lock, mode)
                              <==> Takes(look, lock, mode) || Takes(change, lock, mode) || Takes(LeaveAll(c, topics[1..]), lock, mode)
    {
      TakesEither(look, change, lock, mode);
      TakesEither(look + change, LeaveAll(c, topics[1..]), lock, mode);
    }
  }

  /** A cleanup reads the client's set, changes the listing of every topic it finds, and then takes the close lock. */
  lemma CleanupTakes(c: ClientId, topics: seq<Leaving>, i: nat)
    requires i < |topics|
    ensures var path := Sections(Cleanup(c, topics));
            && path[0] == Section(TopicsLock(c), Read, []) && path[|path| - 1] == Section(CloseLock(c), Write, [])
            && Takes(path, ShardLock(topics[i].shard), Read)
            && (topics[i].found.Some? ==> Takes(path, TopicLock(topics[i].found.value), Write))
            && (topics[i].found.Some? && topics[i].listed ==> Takes(path, TopicsLock(c), Write))
  {
    var read, last := Alone(TopicsLock(c), Read), Alone(CloseLock(c), Write);
    LeaveTakes(c, topics, i);
    forall lock, mode ensures Takes(LeaveAll(c, topics), lock, mode) ==> Takes(read + LeaveAll(c, topics) + last, lock, mode) {
      TakesEither(read, LeaveAll(c, topics), lock, mode);
      TakesEither(read + LeaveAll(c, topics), last, lock, mode);
    }
  }

  /** An unsubscribe goes through the shard and, if the topic is there, its lock, before it answers. */
  lemma UnsubscribeTakes(c: ClientId, shard: nat, found: Option<nat>, listed: bool, answer: Sent)
    ensures var path := Sections(HandleUnsubscribe(c, shard, found, listed, answer));
            && Takes(path, ShardLock(shard), Read) && Takes(path, CloseLock(answer.c), Write)
            && (found.Some? ==> Takes(path, TopicLock(found.value), Write))
            && (found.Some? && listed ==> Takes(path, TopicsLock(c), Write))
  {
    var leaving := [Leaving(shard, found, listed)];
    LeaveTakes(c, leaving, 0);
    SendTakes(answer, false);
    forall lock, mode ensures Takes(LeaveAll(c, leaving) + SendMessage(answer), lock, mode)
                              <==> Takes(LeaveAll(c, leaving), lock, mode) || Takes(SendMessage(answer), lock, mode)
    {
      TakesEither(LeaveAll(c, leaving), SendMessage(answer), lock, mode);
    }
  }

  lemma {:induction false} ReadTopicsTakes(topics: seq<nat>, k: nat)
    requires k < |topics|
    ensures Takes(ReadTopics(topics), TopicLock(topics[k]), Read)
  {
    AloneTakes(TopicLock(topics[0]), Read);
    TakesEither(Alone(TopicLock(topics[0]), Read), ReadTopics(topics[1..]), TopicLock(topics[k]), Read);
    if k > 0 {
      ReadTopicsTakes(topics[1..], k - 1);
    }
  }

  lemma {:induction false} VisitTakes(topicsOf: seq<seq<nat>>, from: nat, holding: bool, i: nat, k: nat)
    requires i < |topicsOf| && k < |topicsOf[i]|
    ensures Takes(VisitShards(topicsOf, from, holding), ShardLock(from + i), Read)
    ensures Takes(VisitShards(topicsOf, from, holding), TopicLock(topicsOf[i][k]), Read)
    decreases i
  {
    var first := if holding then [Section(ShardLock(from), Read, ReadTopics(topicsOf[0]))]
                 else Alone(ShardLock(from), Read) + ReadTopics(topicsOf[0]);
    if i == 0 {
      ReadTopicsTakes(topicsOf[0], k);
      AloneTakes(ShardLock(from), Read);
      TakesEither(Alone(ShardLock(from), Read), ReadTopics(topicsOf[0]), ShardLock(from), Read);
      TakesEither(Alone(ShardLock(from), Read), ReadTopics(topicsOf[0]), TopicLock(topicsOf[0][k]), Read);
    } else {
      VisitTakes(topicsOf[1..], from + 1, holding, i - 1, k);
    }
    TakesEither(first, VisitShards(topicsOf[1..], from + 1, holding), ShardLock(from + i), Read);
    TakesEither(first, VisitShards(topicsOf[1..], from + 1, holding), TopicLock(topicsOf[i][k]), Read);
  }

  /** Listing and counting read every table and every topic found there; counting reads the topics with the table's lock held. */
  lemma VisitsTake(topicsOf: seq<seq<nat>>, i: nat, k: nat)
    requires i < |topicsOf| && k < |topicsOf[i]|
    ensures Takes(Sections(ListAllTopics(topicsOf)), ShardLock(i), Read)
    ensures Takes(Sections(ListAllTopics(topicsOf)), TopicLock(topicsOf[i][k]), Read)
    ensures Takes(Sections(CountSubscribers(topicsOf)), TopicLock(topicsOf[i][k]), Read)
    ensures |Sections(CountSubscribers(topicsOf))| == |topicsOf|
    ensures Sections(CountSubscribers(topicsOf))[i].lock == ShardLock(i)
  {
    VisitTakes(topicsOf, 0, false, i, k);
    VisitTakes(topicsOf, 0, true, i, k);
    CountingHolds(topicsOf, 0, i);
  }

  lemma {:induction false} CountingHolds(topicsOf: seq<seq<nat>>, from: nat, i: nat)
    requires i < |topicsOf|
    ensures |VisitShards(topicsOf, from, true)| == |topicsOf| && VisitShards(topicsOf, from, true)[i].lock == ShardLock(from + i)
    decreases |topicsOf|
  {
    if |topicsOf| > 1 {
      CountingHolds(topicsOf[1..], from + 1, if i > 0 then i - 1 else 0);
    }
  }

  /** An answer and the close of a failed write loop take the close lock. */
  lemma AnswerTakes(answer: Sent, c: ClientId)
    ensures Takes(Sections(LockPaths.Answer(answer)), CloseLock(answer.c), Write)
    ensures Sections(WriteLoopFails(c)) == [Section(CloseLock(c), Write, [])]
  {
    SendTakes(answer, false);
  }
}
