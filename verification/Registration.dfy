/**
 Who is listed where, when every lock-protected piece of subscribing, unsubscribing, disconnecting, creating and
 deleting is a step of its own and any number of goroutines interleave. A topic object has an identity apart from
 its name, so a goroutine may hold a pointer to an object that is deleted and replaced under the same name.
 */
module Registration {
  import opened Model
  import opened ShardHash

  type TopicId = nat
  type DeleterId = nat

  datatype Holder = Handler(c: ClientId) | Deleter(d: DeleterId)

  /** `lock` is the writer holding the topic's mutex. */
  datatype Object = Object(name: Name, subs: set<ClientId>, lock: Option<Holder>)

  datatype Next = ToIdle | ToCleanup(rest: set<Name>)

  /** Where a connection's one handler goroutine stands. */
  datatype Pc =
    | Idle
    | SubChecked(name: Name)                      // TopicExists said yes
    | SubGot(name: Name, tid: TopicId)            // holds a pointer from GetTopic
    | SubAdding(name: Name, tid: TopicId)         // in the topic's map, AddTopic not yet called; holds the topic lock
    | RemGot(name: Name, tid: TopicId, next: Next)
    | RemRemoving(name: Name, tid: TopicId, next: Next) // out of the map, RemoveTopic not yet called; holds the lock
    | Cleaning(rest: set<Name>)
    | Finished

  datatype Client = Client(topics: set<Name>, pc: Pc)

  /** A deleting goroutine; from `Locked` on it holds the shard's lock, in `Closing` the topic's too. */
  datatype DelPc =
    | Locked(name: Name, tid: TopicId)
    | Closing(name: Name, tid: TopicId, rest: set<ClientId>)
    | Cleared(name: Name, tid: TopicId)

  datatype State = State(
    objects: seq<Object>,
    live: map<Name, TopicId>,          // the shards' tables together
    clients: map<ClientId, Client>,
    deleters: map<DeleterId, DelPc>,
    shardLock: map<nat, DeleterId>)    // the writer holding each shard's mutex across steps

  const START := State([], map[], map[], map[], map[])

  datatype Action =
    | Connect(c: ClientId)
    | CheckTopic(c: ClientId, name: Name)
    | LookUp(c: ClientId)
    | EnterAdd(c: ClientId)
    | LeaveAdd(c: ClientId)
    | BeginUnsubscribe(c: ClientId, name: Name)
    | EnterRemove(c: ClientId)
    | LeaveRemove(c: ClientId)
    | HangUp(c: ClientId)
    | NextTopic(c: ClientId, name: Name)
    | FinishCleanup(c: ClientId)
    | Create(name: Name)
    | LockShard(d: DeleterId, name: Name)
    | LockTopic(d: DeleterId)
    | TakeTopicFrom(d: DeleterId, c: ClientId)
    | ClearTopic(d: DeleterId)
    | Unlink(d: DeleterId)

  predicate ShardFree(s: State, name: Name) {
    ShardOf(name) !in s.shardLock
  }

  predicate TopicFree(s: State, tid: TopicId) {
    tid < |s.objects| && s.objects[tid].lock == None
  }

  function Goto(s: State, c: ClientId, pc: Pc): State
    requires c in s.clients
  {
    s.(clients := s.clients[c := s.clients[c].(pc := pc)])
  }

  function After(next: Next): Pc {
    match next
    case ToIdle => Idle
    case ToCleanup(rest) => Cleaning(rest)
  }

  function SetObject(s: State, tid: TopicId, object_: Object): State
    requires tid < |s.objects|
  {
    s.(objects := s.objects[tid := object_])
  }

  // ---------------------------------------------------------------- the handler's steps

  function DoLookUp(s: State, c: ClientId): State {
    if c in s.clients && s.clients[c].pc.SubChecked? && ShardFree(s, s.clients[c].pc.name) then
      var name := s.clients[c].pc.name;
      Goto(s, c, if name in s.live then SubGot(name, s.live[name]) else Idle)
    else s
  }

  function DoEnterAdd(s: State, c: ClientId): State {
    if c in s.clients && s.clients[c].pc.SubGot? && TopicFree(s, s.clients[c].pc.tid) then
      var pc := s.clients[c].pc;
      var t := s.objects[pc.tid];
      if c in t.subs || |t.subs| >= MAX_SUBSCRIBERS_PER_TOPIC then Goto(s, c, Idle)
      else
        Goto(SetObject(s, pc.tid, t.(subs := t.subs + {c}, lock := Some(Handler(c)))), c, SubAdding(pc.name, pc.tid))
    else s
  }

  function DoLeaveAdd(s: State, c: ClientId): State {
    if c in s.clients && s.clients[c].pc.SubAdding? && s.clients[c].pc.tid < |s.objects| then
      var pc := s.clients[c].pc;
      SetObject(s, pc.tid, s.objects[pc.tid].(lock := None))
        .(clients := s.clients[c := Client(s.clients[c].topics + {pc.name}, Idle)])
    else s
  }

  /** GetTopic on behalf of an unsubscribe, by request or from the cleanup loop. */
  function DoFind(s: State, c: ClientId, name: Name, next: Next): State
    requires c in s.clients
  {
    if !ShardFree(s, name) then s
    else Goto(s, c, if name in s.live then RemGot(name, s.live[name], next) else After(next))
  }

  function DoEnterRemove(s: State, c: ClientId): State {
    if c in s.clients && s.clients[c].pc.RemGot? && TopicFree(s, s.clients[c].pc.tid) then
      var pc := s.clients[c].pc;
      var t := s.objects[pc.tid];
      if c !in t.subs then Goto(s, c, After(pc.next))
      else
        Goto(SetObject(s, pc.tid, t.(subs := t.subs - {c}, lock := Some(Handler(c)))), c,
             RemRemoving(pc.name, pc.tid, pc.next))
    else s
  }

  function DoLeaveRemove(s: State, c: ClientId): State {
    if c in s.clients && s.clients[c].pc.RemRemoving? && s.clients[c].pc.tid < |s.objects| then
      var pc := s.clients[c].pc;
      SetObject(s, pc.tid, s.objects[pc.tid].(lock := None))
        .(clients := s.clients[c := Client(s.clients[c].topics - {pc.name}, After(pc.next))])
    else s
  }

  // ---------------------------------------------------------------- creating and deleting

  function DoCreate(s: State, name: Name): State {
    if ShardFree(s, name) && name !in s.live then
      s.(objects := s.objects + [Object(name, {}, None)], live := s.live[name := |s.objects|])
    else s
  }

  function DoLockShard(s: State, d: DeleterId, name: Name): State {
    if d !in s.deleters && ShardFree(s, name) && name in s.live then
      s.(deleters := s.deleters[d := Locked(name, s.live[name])], shardLock := s.shardLock[ShardOf(name) := d])
    else s
  }

  function DoLockTopic(s: State, d: DeleterId): State {
    if d in s.deleters && s.deleters[d].Locked? && TopicFree(s, s.deleters[d].tid) then
      var pc := s.deleters[d];
      var t := s.objects[pc.tid];
      SetObject(s, pc.tid, t.(lock := Some(Deleter(d)))).(deleters := s.deleters[d := Closing(pc.name, pc.tid, t.subs)])
    else s
  }

  function DoTakeTopicFrom(s: State, d: DeleterId, c: ClientId): State {
    if d in s.deleters && s.deleters[d].Closing? && c in s.deleters[d].rest && c in s.clients then
      var pc := s.deleters[d];
      s.(deleters := s.deleters[d := pc.(rest := pc.rest - {c})],
         clients := s.clients[c := s.clients[c].(topics := s.clients[c].topics - {pc.name})])
    else s
  }

  function DoClearTopic(s: State, d: DeleterId): State {
    if d in s.deleters && s.deleters[d].Closing? && s.deleters[d].rest == {} && s.deleters[d].tid < |s.objects| then
      var pc := s.deleters[d];
      SetObject(s, pc.tid, s.objects[pc.tid].(subs := {}, lock := None))
        .(deleters := s.deleters[d := Cleared(pc.name, pc.tid)])
    else s
  }

  function DoUnlink(s: State, d: DeleterId): State {
    if d in s.deleters && s.deleters[d].Cleared? then
      s.(live := s.live - {s.deleters[d].name}, deleters := s.deleters - {d},
         shardLock := s.shardLock - {ShardOf(s.deleters[d].name)})
    else s
  }

  /** One step of one goroutine; a step its goroutine cannot take now changes nothing. */
  function Step(s: State, a: Action): State {
    match a
    case Connect(c) => if c in s.clients then s else s.(clients := s.clients[c := Client({}, Idle)])
    case CheckTopic(c, name) =>
      if c in s.clients && s.clients[c].pc == Idle && ShardFree(s, name) && name in s.live
      then Goto(s, c, SubChecked(name)) else s
    case LookUp(c) => DoLookUp(s, c)
    case EnterAdd(c) => DoEnterAdd(s, c)
    case LeaveAdd(c) => DoLeaveAdd(s, c)
    case BeginUnsubscribe(c, name) =>
      if c in s.clients && s.clients[c].pc == Idle then DoFind(s, c, name, ToIdle) else s
    case EnterRemove(c) => DoEnterRemove(s, c)
    case LeaveRemove(c) => DoLeaveRemove(s, c)
    case HangUp(c) =>
      if c in s.clients && s.clients[c].pc == Idle then Goto(s, c, Cleaning(s.clients[c].topics)) else s
    case NextTopic(c, name) =>
      if c in s.clients && s.clients[c].pc.Cleaning? && name in s.clients[c].pc.rest
      then DoFind(s, c, name, ToCleanup(s.clients[c].pc.rest - {name})) else s
    case FinishCleanup(c) =>
      if c in s.clients && s.clients[c].pc == Cleaning({}) then Goto(s, c, Finished) else s
    case Create(name) => DoCreate(s, name)
    case LockShard(d, name) => DoLockShard(s, d, name)
    case LockTopic(d) => DoLockTopic(s, d)
    case TakeTopicFrom(d, c) => DoTakeTopicFrom(s, d, c)
    case ClearTopic(d) => DoClearTopic(s, d)
    case Unlink(d) => DoUnlink(s, d)
  }

  function Run(actions: seq<Action>): State {
    if actions == [] then START else Step(Run(actions[..|actions| - 1]), actions[|actions| - 1])
  }

  // ---------------------------------------------------------------- the invariant

  predicate Points(pc: Pc) {
    pc.SubGot? || pc.SubAdding? || pc.RemGot? || pc.RemRemoving?
  }

  ghost predicate ObjectsOk(s: State) {
    && (forall n :: n in s.live ==> s.live[n] < |s.objects| && s.objects[s.live[n]].name == n)
    && (forall t, c {:trigger c in s.objects[t].subs} :: 0 <= t < |s.objects| && c in s.objects[t].subs ==> c in s.clients)
  }

  /** A handler's pointer is to an object of its name; inside a critical section it owns that object's lock. */
  ghost predicate HandlerOk(s: State, c: ClientId)
    requires c in s.clients
  {
    var pc := s.clients[c].pc;
    && (Points(pc) ==> pc.tid < |s.objects| && s.objects[pc.tid].name == pc.name)
    && (pc.SubAdding? || pc.RemRemoving? ==> s.objects[pc.tid].lock == Some(Handler(c)))
    && (pc.RemRemoving? ==> c !in s.objects[pc.tid].subs)
    && (Points(pc) && pc.name in s.live && s.live[pc.name] < |s.objects| && s.live[pc.name] != pc.tid ==>
          c !in s.objects[s.live[pc.name]].subs)
  }

  /** A deleter owns its shard's lock, so the object it deletes is still the one under that name. */
  ghost predicate DeleterOk(s: State, d: DeleterId)
    requires d in s.deleters
  {
    var pc := s.deleters[d];
    && pc.name in s.live && s.live[pc.name] == pc.tid && pc.tid < |s.objects|
    && ShardOf(pc.name) in s.shardLock && s.shardLock[ShardOf(pc.name)] == d
    && (pc.Closing? ==> s.objects[pc.tid].lock == Some(Deleter(d)))
  }

  ghost predicate BeingClosed(s: State, tid: TopicId) {
    exists d :: d in s.deleters && s.deleters[d].Closing? && s.deleters[d].tid == tid
  }

  ghost predicate LocksOk(s: State) {
    forall t {:trigger s.objects[t]} :: 0 <= t < |s.objects| && s.objects[t].lock.Some? && s.objects[t].lock.value.Deleter? ==>
      var d := s.objects[t].lock.value.d;
      d in s.deleters && s.deleters[d].Closing? && s.deleters[d].tid == t
  }

  predicate DeleterHolds(t: Object) {
    t.lock.Some? && t.lock.value.Deleter?
  }

  /** A live topic that no deleter has begun to close lists a client only if the client's own set has the name. */
  ghost predicate NoLeak(s: State) {
    forall n, c {:trigger c in s.objects[s.live[n]].subs} :: n in s.live && s.live[n] < |s.objects| && c in s.objects[s.live[n]].subs ==>
      DeleterHolds(s.objects[s.live[n]]) || (c in s.clients && (n in s.clients[c].topics || s.clients[c].pc == SubAdding(n, s.live[n])))
  }

  /** What a cleanup still has to visit. */
  predicate Visits(pc: Pc, n: Name) {
    match pc
    case Cleaning(rest) => n in rest
    case RemGot(name, tid, next) => next.ToIdle? || n == name || n in next.rest
    case RemRemoving(name, tid, next) => next.ToIdle? || n in next.rest
    case Finished => false
    case _ => true
  }

  ghost predicate CleanupCovers(s: State) {
    forall n, c {:trigger c in s.objects[s.live[n]].subs} :: n in s.live && s.live[n] < |s.objects| && c in s.objects[s.live[n]].subs ==>
      DeleterHolds(s.objects[s.live[n]]) || (c in s.clients && Visits(s.clients[c].pc, n))
  }

  /** Pointers and locks. */
  ghost predicate Owners(s: State) {
    && ObjectsOk(s)
    && (forall c :: c in s.clients ==> HandlerOk(s, c))
    && (forall d :: d in s.deleters ==> DeleterOk(s, d))
    && LocksOk(s)
  }

  ghost predicate Inv(s: State) {
    Owners(s) && NoLeak(s) && CleanupCovers(s)
  }

  lemma LookUpKeeps(s: State, c: ClientId)
    requires Inv(s)
    ensures Inv(DoLookUp(s, c))
  {}

  lemma EnterAddOwners(s: State, c: ClientId)
    requires Inv(s)
    ensures Owners(DoEnterAdd(s, c))
  {
    forall b | b in s.clients ensures HandlerOk(DoEnterAdd(s, c), b) {
      EnterAddHandler(s, c, b);
    }
    EnterAddObjects(s, c);
    EnterAddDeleters(s, c);
  }

  lemma EnterAddHandler(s: State, c: ClientId, b: ClientId)
    requires Inv(s) && b in s.clients
    ensures b in DoEnterAdd(s, c).clients && HandlerOk(DoEnterAdd(s, c), b)
  {
    if b == c {
      EnterAddOwn(s, c);
    } else {
      assert HandlerOk(s, b);
    }
  }

  lemma EnterAddOwn(s: State, c: ClientId)
    requires Inv(s) && c in s.clients
    ensures c in DoEnterAdd(s, c).clients && HandlerOk(DoEnterAdd(s, c), c)
  {
    assert HandlerOk(s, c);
  }

  lemma EnterAddObjects(s: State, c: ClientId)
    requires Inv(s)
    ensures ObjectsOk(DoEnterAdd(s, c)) && DoEnterAdd(s, c).clients.Keys == s.clients.Keys
  {}

  lemma EnterAddDeleters(s: State, c: ClientId)
    requires Inv(s)
    ensures var after := DoEnterAdd(s, c); LocksOk(after) && forall e :: e in after.deleters ==> DeleterOk(after, e)
  {
    var after := DoEnterAdd(s, c);
    EnterAddLocks(s, c);
    forall e | e in after.deleters ensures DeleterOk(after, e) {
      EnterAddDeleter(s, c, e);
    }
  }

  lemma EnterAddLocks(s: State, c: ClientId)
    requires Inv(s)
    ensures LocksOk(DoEnterAdd(s, c)) && DoEnterAdd(s, c).deleters == s.deleters
  {}

  lemma EnterAddDeleter(s: State, c: ClientId, e: DeleterId)
    requires Inv(s) && e in s.deleters
    ensures e in DoEnterAdd(s, c).deleters && DeleterOk(DoEnterAdd(s, c), e)
  {
    assert DeleterOk(s, e);
  }

  lemma EnterAddListing(s: State, c: ClientId)
    requires Inv(s)
    ensures NoLeak(DoEnterAdd(s, c)) && CleanupCovers(DoEnterAdd(s, c))
  {}

  lemma EnterAddKeeps(s: State, c: ClientId)
    requires Inv(s)
    ensures Inv(DoEnterAdd(s, c))
  {
    EnterAddOwners(s, c);
    EnterAddListing(s, c);
  }

  lemma LeaveAddKeeps(s: State, c: ClientId)
    requires Inv(s)
    ensures Inv(DoLeaveAdd(s, c))
  {}

  lemma EnterRemoveOwners(s: State, c: ClientId)
    requires Inv(s)
    ensures Owners(DoEnterRemove(s, c))
  {
    forall b | b in s.clients ensures HandlerOk(DoEnterRemove(s, c), b) {
      EnterRemoveHandler(s, c, b);
    }
    EnterRemoveObjects(s, c);
    EnterRemoveDeleters(s, c);
  }

  lemma EnterRemoveHandler(s: State, c: ClientId, b: ClientId)
    requires Inv(s) && b in s.clients
    ensures b in DoEnterRemove(s, c).clients && HandlerOk(DoEnterRemove(s, c), b)
  {
    if b == c {
      EnterRemoveOwn(s, c);
    } else {
      assert HandlerOk(s, b);
    }
  }

  lemma EnterRemoveOwn(s: State, c: ClientId)
    requires Inv(s) && c in s.clients
    ensures c in DoEnterRemove(s, c).clients && HandlerOk(DoEnterRemove(s, c), c)
  {
    assert HandlerOk(s, c);
  }

  lemma EnterRemoveObjects(s: State, c: ClientId)
    requires Inv(s)
    ensures ObjectsOk(DoEnterRemove(s, c)) && DoEnterRemove(s, c).clients.Keys == s.clients.Keys
  {}

  lemma EnterRemoveDeleters(s: State, c: ClientId)
    requires Inv(s)
    ensures var after := DoEnterRemove(s, c); LocksOk(after) && forall e :: e in after.deleters ==> DeleterOk(after, e)
  {
    var after := DoEnterRemove(s, c);
    EnterRemoveLocks(s, c);
    forall e | e in after.deleters ensures DeleterOk(after, e) {
      EnterRemoveDeleter(s, c, e);
    }
  }

  lemma EnterRemoveLocks(s: State, c: ClientId)
    requires Inv(s)
    ensures LocksOk(DoEnterRemove(s, c)) && DoEnterRemove(s, c).deleters == s.deleters
  {}

  lemma EnterRemoveDeleter(s: State, c: ClientId, e: DeleterId)
    requires Inv(s) && e in s.deleters
    ensures e in DoEnterRemove(s, c).deleters && DeleterOk(DoEnterRemove(s, c), e)
  {
    assert DeleterOk(s, e);
  }

  lemma EnterRemoveListing(s: State, c: ClientId)
    requires Inv(s)
    ensures NoLeak(DoEnterRemove(s, c)) && CleanupCovers(DoEnterRemove(s, c))
  {}

  lemma EnterRemoveKeeps(s: State, c: ClientId)
    requires Inv(s)
    ensures Inv(DoEnterRemove(s, c))
  {
    EnterRemoveOwners(s, c);
    EnterRemoveListing(s, c);
  }

  lemma LeaveRemoveOwners(s: State, c: ClientId)
    requires Inv(s)
    ensures Owners(DoLeaveRemove(s, c))
  {}

  lemma LeaveRemoveListing(s: State, c: ClientId)
    requires Inv(s)
    ensures NoLeak(DoLeaveRemove(s, c)) && CleanupCovers(DoLeaveRemove(s, c))
  {}

  lemma LeaveRemoveKeeps(s: State, c: ClientId)
    requires Inv(s)
    ensures Inv(DoLeaveRemove(s, c))
  {
    LeaveRemoveOwners(s, c);
    LeaveRemoveListing(s, c);
  }

  lemma CreateOwners(s: State, name: Name)
    requires Inv(s)
    ensures Owners(DoCreate(s, name))
  {}

  lemma CreateListing(s: State, name: Name)
    requires Inv(s)
    ensures NoLeak(DoCreate(s, name)) && CleanupCovers(DoCreate(s, name))
  {}

  lemma CreateKeeps(s: State, name: Name)
    requires Inv(s)
    ensures Inv(DoCreate(s, name))
  {
    CreateOwners(s, name);
    CreateListing(s, name);
  }

  lemma LockShardOwners(s: State, d: DeleterId, name: Name)
    requires Inv(s)
    ensures Owners(DoLockShard(s, d, name))
  {
    var after := DoLockShard(s, d, name);
    forall b | b in after.clients ensures HandlerOk(after, b) {
      assert HandlerOk(s, b);
    }
    forall e | e in after.deleters ensures DeleterOk(after, e) {
      LockShardDeleter(s, d, name, e);
    }
    LockShardLocks(s, d, name);
  }

  lemma LockShardDeleter(s: State, d: DeleterId, name: Name, e: DeleterId)
    requires Inv(s) && e in DoLockShard(s, d, name).deleters
    ensures DeleterOk(DoLockShard(s, d, name), e)
  {
    assert e in s.deleters ==> DeleterOk(s, e);
  }

  lemma LockShardLocks(s: State, d: DeleterId, name: Name)
    requires Inv(s)
    ensures LocksOk(DoLockShard(s, d, name)) && ObjectsOk(DoLockShard(s, d, name))
  {}

  lemma LockShardListing(s: State, d: DeleterId, name: Name)
    requires Inv(s)
    ensures NoLeak(DoLockShard(s, d, name)) && CleanupCovers(DoLockShard(s, d, name))
  {}

  lemma LockShardKeeps(s: State, d: DeleterId, name: Name)
    requires Inv(s)
    ensures Inv(DoLockShard(s, d, name))
  {
    LockShardOwners(s, d, name);
    LockShardListing(s, d, name);
  }

  lemma LockTopicOwners(s: State, d: DeleterId)
    requires Inv(s)
    ensures Owners(DoLockTopic(s, d))
  {
    var after := DoLockTopic(s, d);
    forall b | b in after.clients ensures HandlerOk(after, b) {
      assert HandlerOk(s, b);
    }
    LockTopicDeleters(s, d);
  }

  lemma LockTopicDeleters(s: State, d: DeleterId)
    requires Inv(s)
    ensures var after := DoLockTopic(s, d); LocksOk(after) && forall e :: e in after.deleters ==> DeleterOk(after, e)
  {
    var after := DoLockTopic(s, d);
    forall e | e in after.deleters ensures DeleterOk(after, e) {
      assert DeleterOk(s, e);
    }
  }

  lemma LockTopicListing(s: State, d: DeleterId)
    requires Inv(s)
    ensures NoLeak(DoLockTopic(s, d)) && CleanupCovers(DoLockTopic(s, d))
  {}

  lemma LockTopicKeeps(s: State, d: DeleterId)
    requires Inv(s)
    ensures Inv(DoLockTopic(s, d))
  {
    LockTopicOwners(s, d);
    LockTopicListing(s, d);
  }

  lemma TakeTopicFromOwners(s: State, d: DeleterId, c: ClientId)
    requires Inv(s)
    ensures Owners(DoTakeTopicFrom(s, d, c))
  {}

  lemma TakeTopicFromListing(s: State, d: DeleterId, c: ClientId)
    requires Inv(s)
    ensures NoLeak(DoTakeTopicFrom(s, d, c)) && CleanupCovers(DoTakeTopicFrom(s, d, c))
  {}

  lemma TakeTopicFromKeeps(s: State, d: DeleterId, c: ClientId)
    requires Inv(s)
    ensures Inv(DoTakeTopicFrom(s, d, c))
  {
    TakeTopicFromOwners(s, d, c);
    TakeTopicFromListing(s, d, c);
  }

  lemma ClearTopicOwners(s: State, d: DeleterId)
    requires Inv(s)
    ensures Owners(DoClearTopic(s, d))
  {
    var after := DoClearTopic(s, d);
    forall b | b in after.clients ensures HandlerOk(after, b) {
      assert HandlerOk(s, b);
    }
    ClearTopicDeleters(s, d);
  }

  lemma ClearTopicDeleters(s: State, d: DeleterId)
    requires Inv(s)
    ensures var after := DoClearTopic(s, d); LocksOk(after) && forall e :: e in after.deleters ==> DeleterOk(after, e)
  {
    var after := DoClearTopic(s, d);
    forall e | e in after.deleters ensures DeleterOk(after, e) {
      assert DeleterOk(s, e);
    }
  }

  lemma ClearTopicListing(s: State, d: DeleterId)
    requires Inv(s)
    ensures NoLeak(DoClearTopic(s, d)) && CleanupCovers(DoClearTopic(s, d))
  {}

  lemma ClearTopicKeeps(s: State, d: DeleterId)
    requires Inv(s)
    ensures Inv(DoClearTopic(s, d))
  {
    ClearTopicOwners(s, d);
    ClearTopicListing(s, d);
  }

  lemma UnlinkOwners(s: State, d: DeleterId)
    requires Inv(s)
    ensures Owners(DoUnlink(s, d))
  {
    var after := DoUnlink(s, d);
    forall b | b in after.clients ensures HandlerOk(after, b) {
      assert HandlerOk(s, b);
    }
    UnlinkDeleters(s, d);
  }

  lemma UnlinkDeleters(s: State, d: DeleterId)
    requires Inv(s)
    ensures var after := DoUnlink(s, d); LocksOk(after) && forall e :: e in after.deleters ==> DeleterOk(after, e)
  {
    var after := DoUnlink(s, d);
    UnlinkLocks(s, d);
    forall e | e in after.deleters ensures DeleterOk(after, e) {
      UnlinkDeleter(s, d, e);
    }
  }

  lemma UnlinkLocks(s: State, d: DeleterId)
    requires Inv(s)
    ensures LocksOk(DoUnlink(s, d))
  {}

  lemma UnlinkDeleter(s: State, d: DeleterId, e: DeleterId)
    requires Inv(s) && e in DoUnlink(s, d).deleters
    ensures DeleterOk(DoUnlink(s, d), e)
  {
    assert DeleterOk(s, e);
    if d in s.deleters {
      assert DeleterOk(s, d);
    }
  }

  lemma UnlinkListing(s: State, d: DeleterId)
    requires Inv(s)
    ensures NoLeak(DoUnlink(s, d)) && CleanupCovers(DoUnlink(s, d))
  {}

  lemma UnlinkKeeps(s: State, d: DeleterId)
    requires Inv(s)
    ensures Inv(DoUnlink(s, d))
  {
    UnlinkOwners(s, d);
    UnlinkListing(s, d);
  }

  lemma FindKeeps(s: State, c: ClientId, name: Name, next: Next)
    requires Inv(s) && c in s.clients
    requires (s.clients[c].pc == Idle && next == ToIdle)
             || (s.clients[c].pc.Cleaning? && name in s.clients[c].pc.rest
                 && next == ToCleanup(s.clients[c].pc.rest - {name}))
    ensures Inv(DoFind(s, c, name, next))
  {
    FindOwners(s, c, name, next);
    FindListing(s, c, name, next);
  }

  lemma FindOwners(s: State, c: ClientId, name: Name, next: Next)
    requires Inv(s) && c in s.clients
    requires s.clients[c].pc == Idle || s.clients[c].pc.Cleaning?
    ensures Owners(DoFind(s, c, name, next))
  {}

  lemma FindListing(s: State, c: ClientId, name: Name, next: Next)
    requires Inv(s) && c in s.clients
    requires (s.clients[c].pc == Idle && next == ToIdle)
             || (s.clients[c].pc.Cleaning? && name in s.clients[c].pc.rest
                 && next == ToCleanup(s.clients[c].pc.rest - {name}))
    ensures NoLeak(DoFind(s, c, name, next)) && CleanupCovers(DoFind(s, c, name, next))
  {}

  lemma StepKeeps(s: State, a: Action)
    requires Inv(s)
    ensures Inv(Step(s, a))
  {
    match a
    case LookUp(c) => LookUpKeeps(s, c);
    case EnterAdd(c) => EnterAddKeeps(s, c);
    case LeaveAdd(c) => LeaveAddKeeps(s, c);
    case BeginUnsubscribe(c, name) =>
      if c in s.clients && s.clients[c].pc == Idle { FindKeeps(s, c, name, ToIdle); }
    case EnterRemove(c) => EnterRemoveKeeps(s, c);
    case LeaveRemove(c) => LeaveRemoveKeeps(s, c);
    case NextTopic(c, name) =>
      if c in s.clients && s.clients[c].pc.Cleaning? && name in s.clients[c].pc.rest {
        FindKeeps(s, c, name, ToCleanup(s.clients[c].pc.rest - {name}));
      }
    case Create(name) => CreateKeeps(s, name);
    case LockShard(d, name) => LockShardKeeps(s, d, name);
    case LockTopic(d) => LockTopicKeeps(s, d);
    case TakeTopicFrom(d, c) => TakeTopicFromKeeps(s, d, c);
    case ClearTopic(d) => ClearTopicKeeps(s, d);
    case Unlink(d) => UnlinkKeeps(s, d);
    case Connect(c) => ConnectKeeps(s, c);
    case CheckTopic(c, name) => CheckTopicKeeps(s, c, name);
    case HangUp(c) => HangUpKeeps(s, c);
    case FinishCleanup(c) => FinishCleanupKeeps(s, c);
  }

  lemma ConnectKeeps(s: State, c: ClientId)
    requires Inv(s)
    ensures Inv(Step(s, Connect(c)))
  {}

  lemma CheckTopicKeeps(s: State, c: ClientId, name: Name)
    requires Inv(s)
    ensures Inv(Step(s, CheckTopic(c, name)))
  {}

  lemma HangUpKeeps(s: State, c: ClientId)
    requires Inv(s)
    ensures Inv(Step(s, HangUp(c)))
  {}

  lemma FinishCleanupKeeps(s: State, c: ClientId)
    requires Inv(s)
    ensures Inv(Step(s, FinishCleanup(c)))
  {
    FinishCleanupOwners(s, c);
    FinishCleanupListing(s, c);
  }

  lemma FinishCleanupOwners(s: State, c: ClientId)
    requires Inv(s)
    ensures Owners(Step(s, FinishCleanup(c)))
  {}

  lemma FinishCleanupListing(s: State, c: ClientId)
    requires Inv(s)
    ensures NoLeak(Step(s, FinishCleanup(c))) && CleanupCovers(Step(s, FinishCleanup(c)))
  {}

  // ---------------------------------------------------------------- over every run

  lemma {:induction false} RunInv(actions: seq<Action>)
    ensures Inv(Run(actions))
  {
    if actions != [] {
      RunInv(actions[..|actions| - 1]);
      StepKeeps(Run(actions[..|actions| - 1]), actions[|actions| - 1]);
    }
  }

  /** What some run leads to. */
  ghost predicate Reachable(s: State) {
    exists actions :: Run(actions) == s
  }

  lemma ReachableInv(s: State)
    requires Reachable(s)
    ensures Inv(s)
  {
    var actions :| Run(actions) == s;
    RunInv(actions);
  }
}
