/**
 The other side of what Agreement says: a name gets out of a client's set when the client leaves the topic. And what
 each operation does when nothing comes in between.
 */
module Knowledge {
  import opened Model
  import opened ShardHash
  import opened Registration

  /** Some object of the name lists the client, and no deletion closing that object has passed the client by. */
  ghost predicate Backed(s: State, c: ClientId, n: Name) {
    exists t :: Backs(s, c, n, t)
  }

  ghost predicate Backs(s: State, c: ClientId, n: Name, t: nat) {
    && t < |s.objects| && s.objects[t].name == n && c in s.objects[t].subs
    && forall d :: d in s.deleters && s.deleters[d].Closing? && s.deleters[d].tid == t ==> c in s.deleters[d].rest
  }

  /** The handler has taken the client off an object of the name and is about to take the name out of its set. */
  predicate IsForgetting(s: State, c: ClientId, n: Name) {
    c in s.clients && s.clients[c].pc.RemRemoving? && s.clients[c].pc.name == n
  }

  ghost predicate Justified(s: State, c: ClientId, n: Name) {
    c in s.clients && n in s.clients[c].topics ==> Backed(s, c, n) || IsForgetting(s, c, n)
  }

  /** Inside an add the object lists the client already. */
  ghost predicate AddingIsListed(s: State, c: ClientId) {
    c in s.clients && s.clients[c].pc.SubAdding? ==>
      s.clients[c].pc.tid < |s.objects| && c in s.objects[s.clients[c].pc.tid].subs
  }

  ghost predicate Known(s: State) {
    (forall c :: AddingIsListed(s, c)) && forall c, n :: Justified(s, c, n)
  }

  // ---------------------------------------------------------------- an object keeps backing a name

  /** What can take the backing of `t` away: the client's own removal, and the closing of the object. */
  predicate Unbacks(s: State, a: Action, c: ClientId, n: Name, t: nat) {
    || (a == EnterRemove(c) && c in s.clients && s.clients[c].pc.RemGot? && s.clients[c].pc.tid == t)
    || (a.TakeTopicFrom? && a.c == c && a.d in s.deleters && s.deleters[a.d].Closing? && s.deleters[a.d].tid == t)
  }

  lemma BackingByHandlers(s: State, a: Action, c: ClientId, n: Name, t: nat)
    requires Owners(s) && Backs(s, c, n, t) && !Unbacks(s, a, c, n, t)
    requires a.Connect? || a.CheckTopic? || a.LookUp? || a.BeginUnsubscribe? || a.HangUp? || a.NextTopic? || a.FinishCleanup?
             || a.Create?
    ensures Backs(Step(s, a), c, n, t)
  {}

  lemma BackingByAdds(s: State, a: Action, c: ClientId, n: Name, t: nat)
    requires Owners(s) && Backs(s, c, n, t) && (a.EnterAdd? || a.LeaveAdd?)
    ensures Backs(Step(s, a), c, n, t)
  {}

  lemma BackingByRemoves(s: State, a: Action, c: ClientId, n: Name, t: nat)
    requires Owners(s) && Backs(s, c, n, t) && !Unbacks(s, a, c, n, t) && (a.EnterRemove? || a.LeaveRemove?)
    ensures Backs(Step(s, a), c, n, t)
  {}

  lemma BackingByLocking(s: State, a: Action, c: ClientId, n: Name, t: nat)
    requires Owners(s) && Backs(s, c, n, t) && (a.LockShard? || a.LockTopic?)
    ensures Backs(Step(s, a), c, n, t)
  {}

  lemma BackingByTaking(s: State, a: Action, c: ClientId, n: Name, t: nat)
    requires Owners(s) && Backs(s, c, n, t) && !Unbacks(s, a, c, n, t) && a.TakeTopicFrom?
    ensures Backs(Step(s, a), c, n, t)
  {}

  lemma BackingByClearing(s: State, a: Action, c: ClientId, n: Name, t: nat)
    requires Owners(s) && Backs(s, c, n, t) && (a.ClearTopic? || a.Unlink?)
    ensures Backs(Step(s, a), c, n, t)
  {}

  lemma BackingStays(s: State, a: Action, c: ClientId, n: Name, t: nat)
    requires Owners(s) && Backs(s, c, n, t) && !Unbacks(s, a, c, n, t)
    ensures Backs(Step(s, a), c, n, t)
  {
    match a
    case EnterAdd(_) => BackingByAdds(s, a, c, n, t);
    case LeaveAdd(_) => BackingByAdds(s, a, c, n, t);
    case EnterRemove(_) => BackingByRemoves(s, a, c, n, t);
    case LeaveRemove(_) => BackingByRemoves(s, a, c, n, t);
    case LockShard(_, _) => BackingByLocking(s, a, c, n, t);
    case LockTopic(_) => BackingByLocking(s, a, c, n, t);
    case TakeTopicFrom(_, _) => BackingByTaking(s, a, c, n, t);
    case ClearTopic(_) => BackingByClearing(s, a, c, n, t);
    case Unlink(_) => BackingByClearing(s, a, c, n, t);
    case _ => BackingByHandlers(s, a, c, n, t);
  }

  // ---------------------------------------------------------------- names come and go

  /** The client has the name, or is ending an add of it. */
  predicate HasOrGains(s: State, a: Action, c: ClientId, n: Name) {
    && c in s.clients
    && (n in s.clients[c].topics || (a == LeaveAdd(c) && s.clients[c].pc.SubAdding? && s.clients[c].pc.name == n))
  }

  lemma NameFromHandlers(s: State, a: Action, c: ClientId, n: Name)
    requires a.Connect? || a.CheckTopic? || a.LookUp? || a.BeginUnsubscribe? || a.HangUp? || a.NextTopic? || a.FinishCleanup?
             || a.Create?
    requires c in Step(s, a).clients && n in Step(s, a).clients[c].topics
    ensures HasOrGains(s, a, c, n)
  {}

  lemma NameFromTopics(s: State, a: Action, c: ClientId, n: Name)
    requires a.EnterAdd? || a.LeaveAdd? || a.EnterRemove? || a.LeaveRemove?
    requires c in Step(s, a).clients && n in Step(s, a).clients[c].topics
    ensures HasOrGains(s, a, c, n)
  {}

  lemma NameFromDeleters(s: State, a: Action, c: ClientId, n: Name)
    requires a.LockShard? || a.LockTopic? || a.TakeTopicFrom? || a.ClearTopic? || a.Unlink?
    requires c in Step(s, a).clients && n in Step(s, a).clients[c].topics
    ensures HasOrGains(s, a, c, n)
  {}

  /** A name enters a client's set only at the end of its add. */
  lemma NameFrom(s: State, a: Action, c: ClientId, n: Name)
    requires c in Step(s, a).clients && n in Step(s, a).clients[c].topics
    ensures HasOrGains(s, a, c, n)
  {
    if a.EnterAdd? || a.LeaveAdd? || a.EnterRemove? || a.LeaveRemove? {
      NameFromTopics(s, a, c, n);
    } else if a.LockShard? || a.LockTopic? || a.TakeTopicFrom? || a.ClearTopic? || a.Unlink? {
      NameFromDeleters(s, a, c, n);
    } else {
      NameFromHandlers(s, a, c, n);
    }
  }

  lemma AddBacks(s: State, c: ClientId, n: Name)
    requires Owners(s) && AddingIsListed(s, c) && c in s.clients && s.clients[c].pc.SubAdding? && s.clients[c].pc.name == n
    ensures Backed(DoLeaveAdd(s, c), c, n)
  {
    assert HandlerOk(s, c);
    forall d | d in s.deleters ensures !(s.deleters[d].Closing? && s.deleters[d].tid == s.clients[c].pc.tid) {
      AddingIsNotClosed(s, c, d);
    }
    assert Backs(DoLeaveAdd(s, c), c, n, s.clients[c].pc.tid);
  }

  lemma AddingIsNotClosed(s: State, c: ClientId, d: DeleterId)
    requires Owners(s) && c in s.clients && s.clients[c].pc.SubAdding? && d in s.deleters
    ensures !(s.deleters[d].Closing? && s.deleters[d].tid == s.clients[c].pc.tid)
  {
    assert HandlerOk(s, c) && DeleterOk(s, d);
  }

  /** A client that takes itself off an object is about to forget the name. */
  lemma RemovalForgets(s: State, c: ClientId, n: Name, t: nat)
    requires Owners(s) && Backs(s, c, n, t) && c in s.clients && s.clients[c].pc.RemGot? && s.clients[c].pc.tid == t
    ensures Backs(DoEnterRemove(s, c), c, n, t) || IsForgetting(DoEnterRemove(s, c), c, n)
  {
    assert HandlerOk(s, c);
  }

  /** A deletion that passes the client by takes the name out of its set. */
  lemma TakingForgets(s: State, d: DeleterId, c: ClientId, n: Name, t: nat)
    requires Owners(s) && Backs(s, c, n, t) && c in s.clients && d in s.deleters && s.deleters[d].Closing? && s.deleters[d].tid == t
    ensures var after := DoTakeTopicFrom(s, d, c); c in after.clients && n !in after.clients[c].topics
  {
    assert DeleterOk(s, d);
  }

  /** The handler stays about to forget until it does. */
  lemma ForgettingEnds(s: State, a: Action, c: ClientId, n: Name)
    requires Owners(s) && IsForgetting(s, c, n) && c in Step(s, a).clients && n in Step(s, a).clients[c].topics
    ensures IsForgetting(Step(s, a), c, n)
  {
    assert HandlerOk(s, c);
  }

  lemma JustifiedStep(s: State, a: Action, c: ClientId, n: Name)
    requires Owners(s) && Known(s)
    ensures Justified(Step(s, a), c, n)
  {
    var after := Step(s, a);
    if c in after.clients && n in after.clients[c].topics {
      NameFrom(s, a, c, n);
      assert Justified(s, c, n) && AddingIsListed(s, c);
      if n !in s.clients[c].topics {
        AddBacks(s, c, n);
      } else if IsForgetting(s, c, n) {
        ForgettingEnds(s, a, c, n);
      } else {
        var t :| Backs(s, c, n, t);
        if a.TakeTopicFrom? && Unbacks(s, a, c, n, t) {
          TakingForgets(s, a.d, c, n, t);
        } else if Unbacks(s, a, c, n, t) {
          RemovalForgets(s, c, n, t);
        } else {
          BackingStays(s, a, c, n, t);
        }
      }
    }
  }

  lemma AddingByHandlers(s: State, a: Action, c: ClientId)
    requires Owners(s) && AddingIsListed(s, c) && a != EnterAdd(c)
    requires !a.EnterRemove? && !a.LeaveRemove? && !a.LockShard? && !a.LockTopic? && !a.TakeTopicFrom? && !a.ClearTopic? && !a.Unlink?
    ensures AddingIsListed(Step(s, a), c)
  {}

  lemma AddingByRemoves(s: State, a: Action, c: ClientId)
    requires Owners(s) && AddingIsListed(s, c) && (a.EnterRemove? || a.LeaveRemove?)
    ensures AddingIsListed(Step(s, a), c)
  {
    if c in s.clients {
      assert HandlerOk(s, c);
    }
  }

  lemma AddingByDeletion(s: State, a: Action, c: ClientId)
    requires Owners(s) && AddingIsListed(s, c) && (a.LockShard? || a.LockTopic? || a.TakeTopicFrom? || a.Unlink?)
    ensures AddingIsListed(Step(s, a), c)
  {}

  lemma AddingByClearing(s: State, d: DeleterId, c: ClientId)
    requires Owners(s) && AddingIsListed(s, c)
    ensures AddingIsListed(DoClearTopic(s, d), c)
  {
    if c in s.clients && s.clients[c].pc.SubAdding? && d in s.deleters {
      AddingIsNotClosed(s, c, d);
    }
  }

  lemma AddingStays(s: State, a: Action, c: ClientId)
    requires Owners(s) && AddingIsListed(s, c) && a != EnterAdd(c)
    ensures AddingIsListed(Step(s, a), c)
  {
    if a.EnterRemove? || a.LeaveRemove? {
      AddingByRemoves(s, a, c);
    } else if a.ClearTopic? {
      AddingByClearing(s, a.d, c);
    } else if a.LockShard? || a.LockTopic? || a.TakeTopicFrom? || a.Unlink? {
      AddingByDeletion(s, a, c);
    } else {
      AddingByHandlers(s, a, c);
    }
  }

  lemma AddingStarts(s: State, c: ClientId)
    requires Owners(s) && AddingIsListed(s, c)
    ensures AddingIsListed(DoEnterAdd(s, c), c)
  {}

  lemma KnownStep(s: State, a: Action)
    requires Owners(s) && Known(s)
    ensures Known(Step(s, a))
  {
    forall c ensures AddingIsListed(Step(s, a), c) {
      assert AddingIsListed(s, c);
      if a == EnterAdd(c) {
        AddingStarts(s, c);
      } else {
        AddingStays(s, a, c);
      }
    }
    forall c, n ensures Justified(Step(s, a), c, n) {
      JustifiedStep(s, a, c, n);
    }
  }

  lemma {:induction false} RunKnown(actions: seq<Action>)
    ensures Known(Run(actions))
  {
    if actions != [] {
      RunInv(actions[..|actions| - 1]);
      RunKnown(actions[..|actions| - 1]);
      KnownStep(Run(actions[..|actions| - 1]), actions[|actions| - 1]);
    }
  }

  /**
   In every interleaving a name is in a client's own set only if an object of that name, live or deleted, lists the client,
   or the client's handler is between taking it off one and taking the name out.
   */
  lemma NameIsBacked(s: State, c: ClientId, n: Name)
    requires Reachable(s) && c in s.clients && n in s.clients[c].topics
    ensures || (exists t :: 0 <= t < |s.objects| && s.objects[t].name == n && c in s.objects[t].subs)
            || (s.clients[c].pc.RemRemoving? && s.clients[c].pc.name == n)
  {
    var actions :| Run(actions) == s;
    RunKnown(actions);
    assert Justified(s, c, n);
    if !IsForgetting(s, c, n) {
      var t :| Backs(s, c, n, t);
    }
  }

  /** So once its handler is back from an unsubscribe, and no object of the name lists the client, it does not hold the name. */
  lemma LeftIsForgotten(s: State, c: ClientId, n: Name)
    requires Reachable(s) && c in s.clients && s.clients[c].pc == Idle
    requires forall t :: 0 <= t < |s.objects| && s.objects[t].name == n ==> c !in s.objects[t].subs
    ensures n !in s.clients[c].topics
  {
    if n in s.clients[c].topics {
      NameIsBacked(s, c, n);
    }
  }

  // ---------------------------------------------------------------- operations with nothing in between

  /** Nobody holds the shard of the name or the mutex of its topic. */
  predicate IsFree(s: State, n: Name) {
    ShardFree(s, n) && n in s.live && TopicFree(s, s.live[n])
  }

  /** A subscribe with nothing in between, to a topic with room: the client is listed and holds the name, and is back. */
  lemma SubscribeAlone(s: State, c: ClientId, n: Name)
    requires Reachable(s) && c in s.clients && s.clients[c].pc == Idle && IsFree(s, n)
    requires c !in s.objects[s.live[n]].subs && |s.objects[s.live[n]].subs| < 50000
    ensures var after := Step(Step(Step(Step(s, CheckTopic(c, n)), LookUp(c)), EnterAdd(c)), LeaveAdd(c));
            && after.live == s.live && |after.objects| == |s.objects|
            && after.objects[s.live[n]] == s.objects[s.live[n]].(subs := s.objects[s.live[n]].subs + {c})
            && after.clients == s.clients[c := Client(s.clients[c].topics + {n}, Idle)]
  {
    ReachableInv(s);
    var found := s.(clients := s.clients[c := s.clients[c].(pc := SubGot(n, s.live[n]))]);
    FindsAlone(s, c, n);
    AddsAlone(found, c, n);
    assert found.clients[c := Client(s.clients[c].topics + {n}, Idle)] == s.clients[c := Client(s.clients[c].topics + {n}, Idle)];
  }

  lemma FindsAlone(s: State, c: ClientId, n: Name)
    requires c in s.clients && s.clients[c].pc == Idle && ShardFree(s, n) && n in s.live
    ensures Step(Step(s, CheckTopic(c, n)), LookUp(c))
            == s.(clients := s.clients[c := s.clients[c].(pc := SubGot(n, s.live[n]))])
  {}

  lemma AddsAlone(s: State, c: ClientId, n: Name)
    requires c in s.clients && n in s.live && s.clients[c].pc == SubGot(n, s.live[n]) && TopicFree(s, s.live[n])
    requires c !in s.objects[s.live[n]].subs && |s.objects[s.live[n]].subs| < 50000
    ensures var t := s.live[n];
            Step(Step(s, EnterAdd(c)), LeaveAdd(c))
            == s.(objects := s.objects[t := s.objects[t].(subs := s.objects[t].subs + {c})],
                  clients := s.clients[c := Client(s.clients[c].topics + {n}, Idle)])
  {}

  /** A subscribe to a topic that is full changes nothing but where the handler stands, and it is back. */
  lemma FullTopicRefuses(s: State, c: ClientId, n: Name, tid: TopicId)
    requires c in s.clients && s.clients[c].pc == SubGot(n, tid) && TopicFree(s, tid)
    requires c in s.objects[tid].subs || |s.objects[tid].subs| >= 50000
    ensures Step(s, EnterAdd(c)) == s.(clients := s.clients[c := s.clients[c].(pc := Idle)])
  {}

  /** An unsubscribe with nothing in between: the client is off the topic, the name is out of its set, and it is back. */
  lemma UnsubscribeAlone(s: State, c: ClientId, n: Name)
    requires Reachable(s) && c in s.clients && s.clients[c].pc == Idle && IsFree(s, n) && c in s.objects[s.live[n]].subs
    ensures var after := Step(Step(Step(s, BeginUnsubscribe(c, n)), EnterRemove(c)), LeaveRemove(c));
            && after.live == s.live && |after.objects| == |s.objects|
            && after.objects[s.live[n]] == s.objects[s.live[n]].(subs := s.objects[s.live[n]].subs - {c})
            && after.clients == s.clients[c := Client(s.clients[c].topics - {n}, Idle)]
  {
    var found := s.(clients := s.clients[c := s.clients[c].(pc := RemGot(n, s.live[n], ToIdle))]);
    assert Step(s, BeginUnsubscribe(c, n)) == found;
    RemovesAlone(found, c, n);
    assert found.clients[c := Client(s.clients[c].topics - {n}, Idle)] == s.clients[c := Client(s.clients[c].topics - {n}, Idle)];
  }

  lemma RemovesAlone(s: State, c: ClientId, n: Name)
    requires c in s.clients && n in s.live && s.clients[c].pc == RemGot(n, s.live[n], ToIdle) && TopicFree(s, s.live[n])
    requires c in s.objects[s.live[n]].subs
    ensures var t := s.live[n];
            Step(Step(s, EnterRemove(c)), LeaveRemove(c))
            == s.(objects := s.objects[t := s.objects[t].(subs := s.objects[t].subs - {c})],
                  clients := s.clients[c := Client(s.clients[c].topics - {n}, Idle)])
  {}

  /** A client that holds nothing hangs up and is finished at once. */
  lemma HangUpOfNothing(s: State, c: ClientId)
    requires c in s.clients && s.clients[c] == Client({}, Idle)
    ensures Step(Step(s, HangUp(c)), FinishCleanup(c)) == s.(clients := s.clients[c := Client({}, Finished)])
  {}

  /** A creation under a free name adds a new, empty object and puts it into the tables; under a name in use it changes nothing. */
  lemma CreationAddsObject(s: State, n: Name)
    requires ShardFree(s, n)
    ensures var after := Step(s, Create(n));
            if n in s.live then after == s
            else
              && after.live == s.live[n := |s.objects|]
              && after.objects == s.objects + [Object(n, {}, None)]
              && after.clients == s.clients && after.deleters == s.deleters
  {}

  /** A deletion ends with the name out of the tables and the shard free again; the object remains, for those who still point to it. */
  lemma DeletionEnds(s: State, d: DeleterId)
    requires Reachable(s) && d in s.deleters && s.deleters[d].Cleared?
    ensures var after, n := Step(s, Unlink(d)), s.deleters[d].name;
            && n in s.live && after.live == s.live - {n} && ShardFree(after, n) && d !in after.deleters
            && after.objects == s.objects && after.clients == s.clients
  {
    ReachableInv(s);
    assert DeleterOk(s, d);
  }

  // ---------------------------------------------------------------- the limit

  ghost predicate Limited(s: State) {
    forall t :: 0 <= t < |s.objects| ==> |s.objects[t].subs| <= 50000
  }

  /** What a step does to one object's list: it grows by one if there was room, or shrinks, or is new. */
  ghost predicate ListChanges(s: State, a: Action, t: nat)
    requires t < |Step(s, a).objects|
  {
    var now := Step(s, a).objects[t].subs;
    || now == {}
    || (t < |s.objects| && now <= s.objects[t].subs)
    || (t < |s.objects| && |s.objects[t].subs| < 50000 && exists c :: now == s.objects[t].subs + {c})
  }

  lemma EnterAddLists(s: State, c: ClientId, t: nat)
    requires t < |DoEnterAdd(s, c).objects|
    ensures t < |s.objects|
    ensures || DoEnterAdd(s, c).objects[t].subs == s.objects[t].subs
            || (DoEnterAdd(s, c).objects[t].subs == s.objects[t].subs + {c} && |s.objects[t].subs| < 50000)
  {}

  lemma EnterAddChanges(s: State, c: ClientId, t: nat)
    requires t < |DoEnterAdd(s, c).objects|
    ensures ListChanges(s, EnterAdd(c), t)
  {
    EnterAddLists(s, c, t);
  }

  lemma OtherChanges(s: State, a: Action, t: nat)
    requires !a.EnterAdd? && t < |Step(s, a).objects|
    ensures ListChanges(s, a, t)
  {}

  lemma SubsFrom(s: State, a: Action, t: nat)
    requires t < |Step(s, a).objects|
    ensures ListChanges(s, a, t)
  {
    if a.EnterAdd? {
      EnterAddChanges(s, a.c, t);
    } else {
      OtherChanges(s, a, t);
    }
  }

  lemma FewerIsSmaller(all: set<ClientId>, fewer: set<ClientId>)
    requires fewer <= all
    ensures |fewer| <= |all|
  {
    assert all == fewer + (all - fewer);
  }

  lemma LimitedStep(s: State, a: Action)
    requires Limited(s)
    ensures Limited(Step(s, a))
  {
    forall t | 0 <= t < |Step(s, a).objects| ensures |Step(s, a).objects[t].subs| <= 50000 {
      SubsFrom(s, a, t);
      if t < |s.objects| {
        var was, now := s.objects[t].subs, Step(s, a).objects[t].subs;
        if now <= was {
          FewerIsSmaller(was, now);
        }
      }
    }
  }

  lemma {:induction false} RunLimited(actions: seq<Action>)
    ensures Limited(Run(actions))
  {
    if actions != [] {
      RunLimited(actions[..|actions| - 1]);
      LimitedStep(Run(actions[..|actions| - 1]), actions[|actions| - 1]);
    }
  }

  /** No object ever lists more clients than the limit, however the adds interleave. */
  lemma LimitHolds(s: State, t: nat)
    requires Reachable(s) && t < |s.objects|
    ensures |s.objects[t].subs| <= 50000
  {
    var actions :| Run(actions) == s;
    RunLimited(actions);
  }
}
