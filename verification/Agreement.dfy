/**
 How far the topics' lists and the clients' own sets agree: no topic lists a client that does not know of it; but a name
 may stay in a client's set with no topic under it listing the client, and here is exactly when.
 */
module Agreement {
  import opened Model
  import opened ShardHash
  import opened Registration

  /**
   No leaked subscriber: when a topic under a live name lists a client, then the client's own set has the name, or
   its handler is about to put it there, or a deleter holding the topic's lock is about to empty the list.
   */
  lemma ListedClientKnows(s: State, n: Name, c: ClientId)
    requires Reachable(s) && n in s.live
    ensures && s.live[n] < |s.objects|
            && (c in s.objects[s.live[n]].subs ==>
                  BeingClosed(s, s.live[n])
                  || (c in s.clients && (n in s.clients[c].topics || s.clients[c].pc == SubAdding(n, s.live[n]))))
  {
    ReachableInv(s);
  }

  /** Once a client's cleanup is over, no live topic lists it, but for one that a deleter is emptying. */
  lemma CleanedUpIsUnlisted(s: State, n: Name, c: ClientId)
    requires Reachable(s) && n in s.live && c in s.clients && s.clients[c].pc == Finished
    ensures s.live[n] < |s.objects| && (c in s.objects[s.live[n]].subs ==> BeingClosed(s, s.live[n]))
  {
    ReachableInv(s);
  }

  /** The topic's lock and the shard's lock each have one writer: two deleters never hold the same object. */
  lemma OneDeleterPerTopic(s: State, d: DeleterId, e: DeleterId)
    requires Reachable(s) && d in s.deleters && e in s.deleters && s.deleters[d].name == s.deleters[e].name
    ensures d == e
  {
    ReachableInv(s);
    assert DeleterOk(s, d) && DeleterOk(s, e);
  }

  lemma RunMore(actions: seq<Action>, a: Action)
    ensures Run(actions + [a]) == Step(Run(actions), a)
  {
    assert (actions + [a])[..|actions|] == actions;
  }

  lemma RunTwoMore(actions: seq<Action>, a: Action, b: Action)
    ensures Run(actions + [a] + [b]) == Step(Step(Run(actions), a), b)
  {
    RunMore(actions, a);
    RunMore(actions + [a], b);
  }

  lemma HalfDeleted(n: Name) returns (actions: seq<Action>)
    ensures Run(actions) == BetweenLocks(n, map[1 := Client({}, SubGot(n, 0))])
  {
    var found := FoundTopic(n);
    DeleteBegins(n, map[1 := Client({}, SubGot(n, 0))]);
    RunTwoMore(found, LockShard(7, n), LockTopic(7));
    actions := found + [LockShard(7, n)] + [LockTopic(7)];
  }

  /** A client that found the topic before its deletion still holds a pointer to the object once it is unlinked. */
  lemma StalePointer(n: Name) returns (actions: seq<Action>)
    ensures Run(actions) == State([Object(n, {}, None)], map[], map[1 := Client({}, SubGot(n, 0))], map[], map[])
  {
    var half := HalfDeleted(n);
    DeleteEnds(n, map[1 := Client({}, SubGot(n, 0))]);
    RunTwoMore(half, ClearTopic(7), Unlink(7));
    actions := half + [ClearTopic(7)] + [Unlink(7)];
  }

  ghost function BetweenLocks(n: Name, clients: map<ClientId, Client>): State {
    State([Object(n, {}, Some(Deleter(7)))], map[n := 0], clients, map[7 := Closing(n, 0, {})], map[ShardOf(n) := 7])
  }

  lemma DeleteBegins(n: Name, clients: map<ClientId, Client>)
    ensures var s := State([Object(n, {}, None)], map[n := 0], clients, map[], map[]);
            DoLockTopic(DoLockShard(s, 7, n), 7) == BetweenLocks(n, clients)
  {}

  lemma DeleteEnds(n: Name, clients: map<ClientId, Client>)
    ensures DoUnlink(DoClearTopic(BetweenLocks(n, clients), 7), 7)
            == State([Object(n, {}, None)], map[], clients, map[], map[])
  {}

  lemma FoundTopic(n: Name) returns (actions: seq<Action>)
    ensures Run(actions) == State([Object(n, {}, None)], map[n := 0], map[1 := Client({}, SubGot(n, 0))], map[], map[])
  {
    actions := [];
    RunMore(actions, Connect(1));
    actions := actions + [Connect(1)];
    RunMore(actions, Create(n));
    actions := actions + [Create(n)];
    RunMore(actions, CheckTopic(1, n));
    actions := actions + [CheckTopic(1, n)];
    RunMore(actions, LookUp(1));
    actions := actions + [LookUp(1)];
  }

  /**
   The converse fails: a goroutine that got its pointer before a deletion adds the client to the deleted object, and
   the client's set then holds a name under which no topic lists it, nor is any goroutine still at work.
   */
  lemma StaleAddLeavesName(n: Name) returns (actions: seq<Action>)
    ensures Run(actions) == State([Object(n, {1}, None)], map[], map[1 := Client({n}, Idle)], map[], map[])
  {
    actions := StalePointer(n);
    RunMore(actions, EnterAdd(1));
    actions := actions + [EnterAdd(1)];
    RunMore(actions, LeaveAdd(1));
    actions := actions + [LeaveAdd(1)];
  }

  /**
   When an add that finds room ends, the client's set has the name; a topic under that name lists the client at that
   moment exactly if the pointer the add worked on was still the one in the tables.
   */
  lemma AddListsIffPointerIsLive(s: State, c: ClientId, n: Name, tid: TopicId)
    requires Reachable(s) && c in s.clients && s.clients[c].pc == SubGot(n, tid) && TopicFree(s, tid)
    requires c !in s.objects[tid].subs && |s.objects[tid].subs| < MAX_SUBSCRIBERS_PER_TOPIC
    ensures var after := Step(Step(s, EnterAdd(c)), LeaveAdd(c));
            && c in after.clients && after.clients[c].pc == Idle && n in after.clients[c].topics
            && ((n in after.live && after.live[n] < |after.objects| && c in after.objects[after.live[n]].subs)
                <==> (n in s.live && s.live[n] == tid))
  {
    ReachableInv(s);
    AddEnds(s, c, n, tid);
  }

  lemma AddEnds(s: State, c: ClientId, n: Name, tid: TopicId)
    requires Owners(s) && c in s.clients && s.clients[c].pc == SubGot(n, tid) && TopicFree(s, tid)
    requires c !in s.objects[tid].subs && |s.objects[tid].subs| < MAX_SUBSCRIBERS_PER_TOPIC
    ensures var after := DoLeaveAdd(DoEnterAdd(s, c), c);
            && c in after.clients && after.clients[c].pc == Idle && n in after.clients[c].topics
            && after.live == s.live && |after.objects| == |s.objects|
            && ((n in s.live && s.live[n] < |s.objects| && c in after.objects[s.live[n]].subs)
                <==> (n in s.live && s.live[n] == tid))
  {
    assert HandlerOk(s, c);
  }

  /**
   The second way: the pointer is to the object in the tables, but a deletion has emptied that object and is about to
   take the name out. The add lands in between.
   */
  lemma AddToClearedLeavesName(n: Name) returns (before: seq<Action>, actions: seq<Action>)
    ensures Run(before) == Emptied(n) && !Current(Emptied(n), n, 0)
    ensures actions == before + [EnterAdd(1)] + [LeaveAdd(1)] + [Unlink(7)]
    ensures Run(actions) == State([Object(n, {1}, None)], map[], map[1 := Client({n}, Idle)], map[], map[])
  {
    before := EmptiedRun(n);
    AddedLateRun(before, n);
    RunMore(before + [EnterAdd(1)] + [LeaveAdd(1)], Unlink(7));
    actions := before + [EnterAdd(1)] + [LeaveAdd(1)] + [Unlink(7)];
    UnlinkEmptied(n);
    assert Emptied(n).deleters[7] == Cleared(n, 0);
  }

  lemma AddedLateRun(before: seq<Action>, n: Name)
    requires Run(before) == Emptied(n)
    ensures Run(before + [EnterAdd(1)] + [LeaveAdd(1)]) == AddedLate(n)
  {
    RunTwoMore(before, EnterAdd(1), LeaveAdd(1));
    AddToEmptied(n);
  }

  /** Client 1 still points to the object in the tables, which deleter 7 has emptied. */
  ghost function Emptied(n: Name): State {
    State([Object(n, {}, None)], map[n := 0], map[1 := Client({}, SubGot(n, 0))], map[7 := Cleared(n, 0)], map[ShardOf(n) := 7])
  }

  ghost function AddedLate(n: Name): State {
    State([Object(n, {1}, None)], map[n := 0], map[1 := Client({n}, Idle)], map[7 := Cleared(n, 0)], map[ShardOf(n) := 7])
  }

  lemma EmptiedRun(n: Name) returns (actions: seq<Action>)
    ensures Run(actions) == Emptied(n)
  {
    var half := HalfDeleted(n);
    RunMore(half, ClearTopic(7));
    actions := half + [ClearTopic(7)];
    ClearBetween(n);
  }

  lemma ClearBetween(n: Name)
    ensures DoClearTopic(BetweenLocks(n, map[1 := Client({}, SubGot(n, 0))]), 7) == Emptied(n)
  {}

  lemma AddToEmptied(n: Name)
    ensures DoLeaveAdd(DoEnterAdd(Emptied(n), 1), 1) == AddedLate(n)
  {
    var entered := State([Object(n, {1}, Some(Handler(1)))], map[n := 0], map[1 := Client({}, SubAdding(n, 0))],
                         map[7 := Cleared(n, 0)], map[ShardOf(n) := 7]);
    assert DoEnterAdd(Emptied(n), 1) == entered;
  }

  lemma UnlinkEmptied(n: Name)
    ensures DoUnlink(AddedLate(n), 7) == State([Object(n, {1}, None)], map[], map[1 := Client({n}, Idle)], map[], map[])
  {}

  // ---------------------------------------------------------------- when a name in a client's set can be trusted

  /** The client's set has the name only if a topic under that name lists the client. */
  predicate Agreed(s: State, c: ClientId, n: Name) {
    c in s.clients && n in s.clients[c].topics ==>
      n in s.live && s.live[n] < |s.objects| && c in s.objects[s.live[n]].subs
  }

  /** A step of `c`'s handler other than the end of an add. */
  predicate HandlerStep(a: Action, c: ClientId) {
    match a
    case CheckTopic(b, _) => b == c
    case LookUp(b) => b == c
    case EnterAdd(b) => b == c
    case BeginUnsubscribe(b, _) => b == c
    case EnterRemove(b) => b == c
    case LeaveRemove(b) => b == c
    case HangUp(b) => b == c
    case NextTopic(b, _) => b == c
    case FinishCleanup(b) => b == c
    case _ => false
  }

  function Continue(s: State, later: seq<Action>): State {
    if later == [] then s else Step(Continue(s, later[..|later| - 1]), later[|later| - 1])
  }

  /** The client holds the name, or its add is about to give it the name. */
  predicate Holding(s: State, c: ClientId, n: Name) {
    c in s.clients && (n in s.clients[c].topics || (s.clients[c].pc.SubAdding? && s.clients[c].pc.name == n))
  }

  /** No deletion under way of the name's topic has passed the client by. */
  ghost predicate NotPassed(s: State, c: ClientId, n: Name) {
    forall d :: d in s.deleters && s.deleters[d].name == n ==>
      !s.deleters[d].Cleared? && (s.deleters[d].Closing? ==> c in s.deleters[d].rest)
  }

  ghost predicate Kept(s: State, c: ClientId, n: Name) {
    Holding(s, c, n) ==>
      && n in s.live && s.live[n] < |s.objects| && c in s.objects[s.live[n]].subs && NotPassed(s, c, n)
      && (s.clients[c].pc.SubAdding? && s.clients[c].pc.name == n ==> s.clients[c].pc.tid == s.live[n])
  }

  lemma KeptByHandlers(s: State, a: Action, c: ClientId, n: Name)
    requires Inv(s) && c in s.clients && Kept(s, c, n) && !HandlerStep(a, c)
    requires a.Connect? || a.CheckTopic? || a.LookUp? || a.BeginUnsubscribe? || a.HangUp? || a.NextTopic? || a.FinishCleanup?
             || a.Create?
    ensures Kept(Step(s, a), c, n)
  {}

  lemma KeptByAdds(s: State, a: Action, c: ClientId, n: Name)
    requires Inv(s) && c in s.clients && Kept(s, c, n) && !HandlerStep(a, c)
    requires a.EnterAdd? || a.LeaveAdd?
    ensures Kept(Step(s, a), c, n)
  {}

  lemma KeptByRemoves(s: State, a: Action, c: ClientId, n: Name)
    requires Inv(s) && c in s.clients && Kept(s, c, n) && !HandlerStep(a, c)
    requires a.EnterRemove? || a.LeaveRemove?
    ensures Kept(Step(s, a), c, n)
  {}

  lemma KeptByLockShard(s: State, d: DeleterId, name: Name, c: ClientId, n: Name)
    requires Inv(s) && c in s.clients && Kept(s, c, n)
    ensures Kept(DoLockShard(s, d, name), c, n)
  {}

  lemma KeptByLockTopic(s: State, d: DeleterId, c: ClientId, n: Name)
    requires Inv(s) && c in s.clients && Kept(s, c, n)
    ensures Kept(DoLockTopic(s, d), c, n)
  {
    if d in s.deleters {
      assert DeleterOk(s, d);
    }
  }

  lemma KeptByTaking(s: State, d: DeleterId, b: ClientId, c: ClientId, n: Name)
    requires Inv(s) && c in s.clients && Kept(s, c, n)
    ensures Kept(DoTakeTopicFrom(s, d, b), c, n)
  {
    assert HandlerOk(s, c);
    if d in s.deleters {
      assert DeleterOk(s, d);
    }
  }

  lemma KeptByClearing(s: State, d: DeleterId, c: ClientId, n: Name)
    requires Inv(s) && c in s.clients && Kept(s, c, n)
    ensures Kept(DoClearTopic(s, d), c, n)
  {
    if d in s.deleters {
      assert DeleterOk(s, d);
    }
  }

  lemma KeptByUnlinking(s: State, d: DeleterId, c: ClientId, n: Name)
    requires Inv(s) && c in s.clients && Kept(s, c, n)
    ensures Kept(DoUnlink(s, d), c, n)
  {
    if d in s.deleters {
      assert DeleterOk(s, d);
    }
  }

  lemma KeptStep(s: State, a: Action, c: ClientId, n: Name)
    requires Inv(s) && c in s.clients && Kept(s, c, n) && !HandlerStep(a, c)
    ensures c in Step(s, a).clients && Kept(Step(s, a), c, n)
  {
    ClientsStay(s, a);
    match a
    case EnterAdd(_) => KeptByAdds(s, a, c, n);
    case LeaveAdd(_) => KeptByAdds(s, a, c, n);
    case EnterRemove(_) => KeptByRemoves(s, a, c, n);
    case LeaveRemove(_) => KeptByRemoves(s, a, c, n);
    case LockShard(d, name) => KeptByLockShard(s, d, name, c, n);
    case LockTopic(d) => KeptByLockTopic(s, d, c, n);
    case TakeTopicFrom(d, b) => KeptByTaking(s, d, b, c, n);
    case ClearTopic(d) => KeptByClearing(s, d, c, n);
    case Unlink(d) => KeptByUnlinking(s, d, c, n);
    case _ => KeptByHandlers(s, a, c, n);
  }

  lemma ClientsStay(s: State, a: Action)
    ensures s.clients.Keys <= Step(s, a).clients.Keys
  {}

  lemma {:induction false} KeptOn(s: State, later: seq<Action>, c: ClientId, n: Name)
    requires Inv(s) && c in s.clients && Kept(s, c, n) && forall a :: a in later ==> !HandlerStep(a, c)
    ensures var after := Continue(s, later); Inv(after) && c in after.clients && Kept(after, c, n)
  {
    if later != [] {
      KeptOn(s, later[..|later| - 1], c, n);
      KeptStep(Continue(s, later[..|later| - 1]), later[|later| - 1], c, n);
      StepKeeps(Continue(s, later[..|later| - 1]), later[|later| - 1]);
    }
  }

  /** The pointer is to the object in the tables, and no deletion has emptied that object already. */
  ghost predicate Current(s: State, n: Name, tid: TopicId) {
    n in s.live && s.live[n] == tid && forall d :: d in s.deleters ==> s.deleters[d] != Cleared(n, tid)
  }

  /** Whatever everyone else does while the add ends and after it, the client's set agrees with the tables about `n`. */
  ghost predicate AgreedAlways(s: State, c: ClientId, n: Name) {
    forall later :: (forall a :: a in later ==> !HandlerStep(a, c)) ==> Agreed(Continue(s, later), c, n)
  }

  lemma EnteredIsKept(s: State, c: ClientId, n: Name, tid: TopicId)
    requires Inv(s) && c in s.clients && s.clients[c].pc == SubGot(n, tid) && TopicFree(s, tid)
    requires c !in s.objects[tid].subs && |s.objects[tid].subs| < MAX_SUBSCRIBERS_PER_TOPIC
    requires Current(s, n, tid)
    ensures Kept(DoEnterAdd(s, c), c, n)
  {
    forall d | d in s.deleters && s.deleters[d].name == n ensures s.deleters[d].Locked? {
      assert DeleterOk(s, d);
    }
  }

  lemma ContinueOne(s: State, a: Action)
    ensures Continue(s, [a]) == Step(s, a)
  {
    assert [a][..0] == [];
  }

  lemma ContinueTwo(s: State, a: Action, b: Action)
    ensures Continue(s, [a, b]) == Step(Step(s, a), b)
  {
    assert [a, b][..1] == [a];
    ContinueOne(s, a);
  }

  lemma SeenAfterOne(s: State, c: ClientId, n: Name, a: Action)
    requires !HandlerStep(a, c) && !Agreed(Step(s, a), c, n)
    ensures !AgreedAlways(s, c, n)
  {
    ContinueOne(s, a);
    assert !Agreed(Continue(s, [a]), c, n);
  }

  lemma SeenAfterTwo(s: State, c: ClientId, n: Name, a: Action, b: Action)
    requires !HandlerStep(a, c) && !HandlerStep(b, c) && !Agreed(Step(Step(s, a), b), c, n)
    ensures !AgreedAlways(s, c, n)
  {
    ContinueTwo(s, a, b);
    assert !Agreed(Continue(s, [a, b]), c, n);
  }

  lemma StaleIsSeen(s: State, c: ClientId, n: Name, tid: TopicId)
    requires Inv(s) && c in s.clients && s.clients[c].pc == SubGot(n, tid) && TopicFree(s, tid)
    requires c !in s.objects[tid].subs && |s.objects[tid].subs| < MAX_SUBSCRIBERS_PER_TOPIC
    requires !Current(s, n, tid)
    ensures !AgreedAlways(DoEnterAdd(s, c), c, n)
  {
    if n in s.live && s.live[n] == tid {
      var d :| d in s.deleters && s.deleters[d] == Cleared(n, tid);
      EmptiedIsUnlinked(s, c, n, tid, d);
      SeenAfterTwo(DoEnterAdd(s, c), c, n, LeaveAdd(c), Unlink(d));
    } else {
      StaleIsUnlisted(s, c, n, tid);
      SeenAfterOne(DoEnterAdd(s, c), c, n, LeaveAdd(c));
    }
  }

  lemma EmptiedIsUnlinked(s: State, c: ClientId, n: Name, tid: TopicId, d: DeleterId)
    requires Inv(s) && c in s.clients && s.clients[c].pc == SubGot(n, tid) && TopicFree(s, tid)
    requires c !in s.objects[tid].subs && |s.objects[tid].subs| < MAX_SUBSCRIBERS_PER_TOPIC
    requires d in s.deleters && s.deleters[d] == Cleared(n, tid)
    ensures !Agreed(Step(Step(DoEnterAdd(s, c), LeaveAdd(c)), Unlink(d)), c, n)
  {
    AddEnds(s, c, n, tid);
    AddsKeepDeleters(s, c);
    UnlinkUnlists(DoLeaveAdd(DoEnterAdd(s, c), c), d, c, n);
    LeaveThenUnlink(DoEnterAdd(s, c), c, d);
  }

  lemma LeaveThenUnlink(s: State, c: ClientId, d: DeleterId)
    ensures Step(Step(s, LeaveAdd(c)), Unlink(d)) == DoUnlink(DoLeaveAdd(s, c), d)
  {}

  lemma AddsKeepDeleters(s: State, c: ClientId)
    ensures DoLeaveAdd(DoEnterAdd(s, c), c).deleters == s.deleters
  {}

  lemma StaleIsUnlisted(s: State, c: ClientId, n: Name, tid: TopicId)
    requires Inv(s) && c in s.clients && s.clients[c].pc == SubGot(n, tid) && TopicFree(s, tid)
    requires c !in s.objects[tid].subs && |s.objects[tid].subs| < MAX_SUBSCRIBERS_PER_TOPIC
    requires !(n in s.live && s.live[n] == tid)
    ensures !Agreed(Step(DoEnterAdd(s, c), LeaveAdd(c)), c, n)
  {
    AddEnds(s, c, n, tid);
  }

  lemma UnlinkUnlists(s: State, d: DeleterId, c: ClientId, n: Name)
    requires c in s.clients && n in s.clients[c].topics && d in s.deleters && s.deleters[d].Cleared? && s.deleters[d].name == n
    ensures !Agreed(DoUnlink(s, d), c, n)
  {}

  /**
   The exact condition. A client with a pointer to an object with room adds itself. However the others interleave with
   the end of the add and with everything after it, the client's set never has the name without a topic under it
   listing the client, until its own handler takes another step: if and only if the object was the one in the tables
   and no deletion had emptied it already.
   */
  lemma AddLastsIffTopicStays(s: State, c: ClientId, n: Name, tid: TopicId)
    requires Reachable(s) && c in s.clients && s.clients[c].pc == SubGot(n, tid) && TopicFree(s, tid)
    requires c !in s.objects[tid].subs && |s.objects[tid].subs| < MAX_SUBSCRIBERS_PER_TOPIC
    ensures AgreedAlways(Step(s, EnterAdd(c)), c, n) <==> Current(s, n, tid)
  {
    ReachableInv(s);
    if Current(s, n, tid) {
      EnteredIsKept(s, c, n, tid);
      EnterAddKeeps(s, c);
      forall later | forall a :: a in later ==> !HandlerStep(a, c)
        ensures Agreed(Continue(DoEnterAdd(s, c), later), c, n)
      {
        KeptOn(DoEnterAdd(s, c), later, c, n);
      }
    } else {
      StaleIsSeen(s, c, n, tid);
    }
  }
}
