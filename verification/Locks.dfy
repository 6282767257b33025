/**
 The locks of shards, topics and subscribers, taken and released by any number of goroutines. A read-write lock lets
 readers share, and a writer that has announced itself keeps new readers out while it waits for the old ones to leave.
 */
module Locks {
  import opened Model
  import opened Sums

  datatype Lock =
    | ShardLock(shard: nat)
    | TopicLock(topic: nat)
    | CloseLock(c: ClientId)
    | TopicsLock(c: ClientId)

  datatype Mode = Read | Write

  const RANKS: nat := 3

  function Rank(lock: Lock): nat {
    match lock
    case ShardLock(_) => 0
    case TopicLock(_) => 1
    case _ => 2
  }

  datatype Op = Acquire(lock: Lock, mode: Mode) | Release(lock: Lock)

  type ThreadId = nat

  /** What a goroutine holds, the lock operations it goes on to make, and whether it has announced its next write lock. */
  datatype Thread = Thread(held: map<Lock, Mode>, todo: seq<Op>, announced: bool)

  type State = map<ThreadId, Thread>

  predicate Wants(t: Thread, lock: Lock) {
    t.todo != [] && t.todo[0].Acquire? && t.todo[0].lock == lock
  }

  predicate Writing(t: Thread, lock: Lock) {
    (lock in t.held && t.held[lock] == Write) || (t.announced && Wants(t, lock))
  }

  /** What a waiting goroutine waits for: nobody writing or about to, or, once announced, nobody holding. */
  ghost predicate CanStep(s: State, id: ThreadId) {
    && id in s && s[id].todo != []
    && var t := s[id];
    match t.todo[0]
    case Release(_) => true
    case Acquire(lock, mode) =>
      if mode == Write && t.announced then forall u :: u in s ==> lock !in s[u].held
      else forall u :: u in s ==> !Writing(s[u], lock)
  }

  function Advance(t: Thread): Thread
    requires t.todo != []
  {
    match t.todo[0]
    case Release(lock) => Thread(t.held - {lock}, t.todo[1..], false)
    case Acquire(lock, mode) =>
      if mode == Write && !t.announced then t.(announced := true)
      else Thread(t.held[lock := mode], t.todo[1..], false)
  }

  // ---------------------------------------------------------------- the discipline

  /** Each lock taken ranks above all held ones; each one released is held; nothing stays held. */
  ghost predicate Disciplined(held: set<Lock>, todo: seq<Op>)
    decreases |todo|
  {
    if todo == [] then held == {}
    else
      match todo[0]
      case Acquire(lock, _) => (forall h :: h in held ==> Rank(h) < Rank(lock)) && Disciplined(held + {lock}, todo[1..])
      case Release(lock) => lock in held && Disciplined(held - {lock}, todo[1..])
  }

  ghost predicate ThreadOk(t: Thread) {
    && Disciplined(t.held.Keys, t.todo)
    && (t.announced ==> t.todo != [] && t.todo[0].Acquire? && t.todo[0].mode == Write)
  }

  /** A lock held or announced for writing belongs to one goroutine, but for readers an announced writer waits for. */
  ghost predicate Exclusive(s: State) {
    forall a, b, lock {:trigger Writing(s[a], lock), Writing(s[b], lock)} ::
      a in s && b in s && Writing(s[a], lock) && Writing(s[b], lock) ==> a == b
  }

  ghost predicate WritersAlone(s: State) {
    forall a, b, lock {:trigger lock in s[a].held, lock in s[b].held} ::
      a in s && b in s && lock in s[a].held && s[a].held[lock] == Write && lock in s[b].held ==> a == b
  }

  ghost predicate Ok(s: State) {
    && (forall t :: t in s ==> ThreadOk(s[t]))
    && Exclusive(s) && WritersAlone(s)
  }

  /** Any goroutine that can move moves, or a new one starts. */
  datatype Event = Start(id: ThreadId, program: seq<Op>) | Run(id: ThreadId)

  ghost function After(s: State, e: Event): State {
    match e
    case Start(id, program) =>
      if id !in s then s[id := Thread(map[], program, false)] else s
    case Run(id) => if CanStep(s, id) then s[id := Advance(s[id])] else s
  }

  ghost function Reached(events: seq<Event>): State {
    if events == [] then map[] else After(Reached(events[..|events| - 1]), events[|events| - 1])
  }

  /** Every program that is started keeps the discipline. */
  ghost predicate Orderly(events: seq<Event>) {
    forall e :: e in events && e.Start? ==> Disciplined({}, e.program)
  }

  lemma AdvanceOk(t: Thread)
    requires ThreadOk(t) && t.todo != []
    ensures ThreadOk(Advance(t))
  {
    match t.todo[0]
    case Release(lock) => assert (t.held - {lock}).Keys == t.held.Keys - {lock};
    case Acquire(lock, mode) => assert t.held[lock := mode].Keys == t.held.Keys + {lock};
  }

  lemma StepOk(s: State, id: ThreadId)
    requires Ok(s) && CanStep(s, id)
    ensures Ok(s[id := Advance(s[id])])
  {
    AdvanceOk(s[id]);
    assert ThreadOk(s[id]);
    StepExclusive(s, id);
    StepAlone(s, id);
  }

  lemma StepExclusive(s: State, id: ThreadId)
    requires Ok(s) && CanStep(s, id)
    ensures Exclusive(s[id := Advance(s[id])])
  {
    assert ThreadOk(s[id]);
    var after := s[id := Advance(s[id])];
    forall a, b, lock | a in after && b in after && Writing(after[a], lock) && Writing(after[b], lock) ensures a == b {
      assert a != id ==> Writing(s[a], lock);
      assert b != id ==> Writing(s[b], lock);
      assert Writing(after[id], lock) ==> Writing(s[id], lock) || Wants(s[id], lock);
    }
  }

  lemma StepAlone(s: State, id: ThreadId)
    requires Ok(s) && CanStep(s, id)
    ensures WritersAlone(s[id := Advance(s[id])])
  {
    assert ThreadOk(s[id]);
    var after := s[id := Advance(s[id])];
    forall a, b, lock | a in after && b in after && lock in after[a].held && after[a].held[lock] == Write && lock in after[b].held
      ensures a == b
    {
      assert a != id ==> Writing(s[a], lock);
    }
  }

  lemma FreshOk(program: seq<Op>)
    requires Disciplined({}, program)
    ensures ThreadOk(Thread(map[], program, false))
  {
    assert Thread(map[], program, false).held.Keys == {};
  }

  /** Every run keeps the discipline, and no lock is ever written to while anyone else holds it. */
  lemma {:induction false} RunOk(events: seq<Event>)
    requires Orderly(events)
    ensures Ok(Reached(events))
  {
    if events != [] {
      RunOk(events[..|events| - 1]);
      var s := Reached(events[..|events| - 1]);
      match events[|events| - 1]
      case Start(_, program) => FreshOk(program);
      case Run(id) => if CanStep(s, id) { StepOk(s, id); }
    }
  }

  /** While a writer has announced itself or holds the lock, nobody else can begin to take it, for reading or for writing. */
  lemma WriterKeepsOthersOut(s: State, writer: ThreadId, other: ThreadId, lock: Lock)
    requires writer in s && other in s && Wants(s[other], lock) && !s[other].announced
    requires (s[writer].announced && Wants(s[writer], lock)) || (lock in s[writer].held && s[writer].held[lock] == Write)
    ensures !CanStep(s, other)
  {
    assert Writing(s[writer], lock);
  }

  // ---------------------------------------------------------------- no deadlock

  lemma HolderWantsMore(t: Thread, lock: Lock)
    requires ThreadOk(t) && lock in t.held
    ensures t.todo != []
    ensures t.todo[0].Acquire? ==> Rank(lock) < Rank(t.todo[0].lock)
  {}

  /** Whoever a goroutine waits for can move, or waits for a lock of higher rank, or is a writer waiting for readers. */
  lemma SomeoneMoves(s: State, id: ThreadId) returns (mover: ThreadId)
    requires Ok(s) && id in s && s[id].todo != []
    ensures CanStep(s, mover)
    decreases if s[id].todo[0].Acquire? then RANKS - Rank(s[id].todo[0].lock) else 0, if s[id].announced then 0 else 1
  {
    assert ThreadOk(s[id]);
    if CanStep(s, id) {
      return id;
    }
    var lock := s[id].todo[0].lock;
    if s[id].announced {
      var u :| u in s && lock in s[u].held;
      HolderWantsMore(s[u], lock);
      mover := SomeoneMoves(s, u);
    } else {
      var u :| u in s && Writing(s[u], lock);
      if lock in s[u].held {
        HolderWantsMore(s[u], lock);
      }
      mover := SomeoneMoves(s, u);
    }
  }

  /** Deadlock freedom: in every reachable state with an unfinished goroutine, some goroutine can move. */
  lemma NoDeadlock(events: seq<Event>, id: ThreadId)
    requires Orderly(events) && id in Reached(events) && Reached(events)[id].todo != []
    ensures exists mover :: CanStep(Reached(events), mover)
  {
    RunOk(events);
    var mover := SomeoneMoves(Reached(events), id);
  }

  function Work(t: Thread): nat {
    2 * |t.todo| + if t.announced then 0 else 1
  }

  ghost function WorkOf(s: State): map<ThreadId, nat> {
    map t | t in s :: Work(s[t])
  }

  ghost function TotalWork(s: State): nat {
    Sum(WorkOf(s))
  }

  lemma StepWorks(s: State, id: ThreadId)
    requires id in s && s[id].todo != [] && ThreadOk(s[id])
    ensures TotalWork(s[id := Advance(s[id])]) < TotalWork(s)
  {
    var after := s[id := Advance(s[id])];
    SumByAny(WorkOf(s), id);
    SumByAny(WorkOf(after), id);
    assert WorkOf(s) - {id} == WorkOf(after) - {id};
  }

  ghost predicate Finished(s: State) {
    forall t :: t in s ==> s[t].todo == [] && s[t].held == map[]
  }

  lemma NothingLeft(s: State)
    requires Ok(s) && forall t :: t in s ==> s[t].todo == []
    ensures Finished(s)
  {
    forall t | t in s ensures s[t].held == map[] {
      assert ThreadOk(s[t]);
      assert s[t].held.Keys == {};
    }
  }

  /** The goroutines named in `order` move one after the other. */
  ghost function Scheduled(s: State, order: seq<ThreadId>): State
    decreases |order|
  {
    if order == [] then s else Scheduled(After(s, Run(order[0])), order[1..])
  }

  ghost predicate Finishes(s: State, order: seq<ThreadId>) {
    Scheduled(s, order).Keys == s.Keys && Finished(Scheduled(s, order))
  }

  lemma {:induction false} ScheduleFrom(s: State) returns (order: seq<ThreadId>)
    requires Ok(s)
    ensures Finishes(s, order)
    decreases TotalWork(s)
  {
    if id :| id in s && s[id].todo != [] {
      var mover := SomeoneMoves(s, id);
      StepOk(s, mover);
      StepWorks(s, mover);
      var rest := ScheduleFrom(After(s, Run(mover)));
      order := [mover] + rest;
      assert order[1..] == rest;
    } else {
      NothingLeft(s);
      order := [];
    }
  }

  /** From every reachable state some schedule runs all goroutines to their ends, and each step of any of them is progress. */
  lemma EveryoneCanFinish(events: seq<Event>)
    requires Orderly(events)
    ensures exists order :: Finishes(Reached(events), order)
    ensures forall id :: CanStep(Reached(events), id) ==>
              TotalWork(After(Reached(events), Run(id))) < TotalWork(Reached(events))
  {
    RunOk(events);
    var s := Reached(events);
    var order := ScheduleFrom(s);
    forall id | CanStep(s, id) ensures TotalWork(After(s, Run(id))) < TotalWork(s) {
      StepWorks(s, id);
    }
  }
}
