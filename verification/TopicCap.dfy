/**
 Topic creation by any number of goroutines: each adds up the topics of the 32 shards, one shard lock at a time, and
 inserts if the sum was below the limit. Deletions may come at any moment.
 */
module TopicCap {
  import opened Model
  import opened ShardHash
  import opened Sums

  type CreatorId = nat

  datatype Creator =
    | Scanning(name: Name, next: nat, sum: nat)   // shards below `next` are counted in `sum`
    | Ready(name: Name, sum: nat)                 // found the sum below the limit

  datatype State = State(live: set<Name>, creators: map<CreatorId, Creator>)

  datatype Action =
    | Begin(id: CreatorId, name: Name)
    | ReadShard(id: CreatorId)
    | Compare(id: CreatorId)
    | Insert(id: CreatorId)
    | Delete(name: Name)

  ghost function InShard(live: set<Name>, shard: nat): set<Name> {
    set name | name in live && ShardOf(name) == shard
  }

  ghost function Step(s: State, a: Action): State {
    match a
    case Begin(id, name) =>
      if id in s.creators || name == EMPTY_NAME then s
      else s.(creators := s.creators[id := Scanning(name, 0, 0)])
    case ReadShard(id) =>
      if id in s.creators && s.creators[id].Scanning? && s.creators[id].next < SHARD_COUNT then
        var c := s.creators[id];
        s.(creators := s.creators[id := Scanning(c.name, c.next + 1, c.sum + |InShard(s.live, c.next)|)])
      else s
    case Compare(id) =>
      if id in s.creators && s.creators[id].Scanning? && s.creators[id].next == SHARD_COUNT then
        var c := s.creators[id];
        if c.sum >= MAX_TOPICS_LIMIT then s.(creators := s.creators - {id})
        else s.(creators := s.creators[id := Ready(c.name, c.sum)])
      else s
    case Insert(id) =>
      if id in s.creators && s.creators[id].Ready? then
        State(s.live + {s.creators[id].name}, s.creators - {id})
      else s
    case Delete(name) => s.(live := s.live - {name})
  }

  ghost function Run(actions: seq<Action>): State {
    if actions == [] then State({}, map[]) else Step(Run(actions[..|actions| - 1]), actions[|actions| - 1])
  }

  /** At no moment of the run are more than `n` creations under way. */
  ghost predicate AtMost(actions: seq<Action>, n: nat)
    decreases |actions|
  {
    |Run(actions).creators| <= n && (actions != [] ==> AtMost(actions[..|actions| - 1], n))
  }

  /** Some run with at most `n` creations under way at once leads here. */
  ghost predicate Reaches(s: State, n: nat) {
    exists actions :: AtMost(actions, n) && Run(actions) == s
  }

  // ---------------------------------------------------------------- the bound

  ghost function Rest(live: set<Name>, next: nat): set<Name> {
    set name | name in live && ShardOf(name) >= next
  }

  /** The sum a creation would end with if nothing changed from now on. */
  ghost function Projected(live: set<Name>, c: Creator): nat {
    match c
    case Scanning(_, next, sum) => sum + |Rest(live, next)|
    case Ready(_, sum) => sum
  }

  ghost function Below(s: State, m: nat): set<CreatorId> {
    set id | id in s.creators && Projected(s.live, s.creators[id]) < m
  }

  /** Topics, and creations on course for a sum below `m`, together stay below `m + n`, for every `m` from the limit on. */
  ghost predicate Capped(s: State, n: nat) {
    && (forall m: nat :: m >= MAX_TOPICS_LIMIT ==> |s.live| + |Below(s, m)| < m + n)
    && forall id :: id in s.creators ==>
         && (s.creators[id].Ready? ==> s.creators[id].sum < MAX_TOPICS_LIMIT)
         && (s.creators[id].Scanning? ==> s.creators[id].next <= SHARD_COUNT)
  }

  lemma RestSplits(live: set<Name>, next: nat)
    ensures |Rest(live, next)| == |InShard(live, next)| + |Rest(live, next + 1)|
  {
    assert Rest(live, next) == InShard(live, next) + Rest(live, next + 1);
    assert InShard(live, next) !! Rest(live, next + 1);
  }

  lemma RestGrows(live: set<Name>, name: Name, next: nat)
    ensures |Rest(live, next)| <= |Rest(live + {name}, next)|
    ensures |Rest(live, next)| <= |Rest(live - {name}, next)| + 1
  {
    SubsetSize(Rest(live, next), Rest(live + {name}, next));
    assert Rest(live, next) <= Rest(live - {name}, next) + {name};
    SubsetSize(Rest(live, next), Rest(live - {name}, next) + {name});
  }

  /** A step that changes no topic keeps or ends a creation's course; a new one starts on course for the present total. */
  lemma ScanStep(s: State, a: Action, n: nat, m: nat)
    requires Capped(s, n) && m >= MAX_TOPICS_LIMIT && (a.ReadShard? || a.Compare?)
    ensures |s.live| + |Below(Step(s, a), m)| < m + n
  {
    if a.ReadShard? && Step(s, a) != s {
      RestSplits(s.live, s.creators[a.id].next);
    }
    if a.Compare? && Step(s, a) != s {
      assert Rest(s.live, SHARD_COUNT) == {};
    }
    assert Below(Step(s, a), m) <= Below(s, m);
    SubsetSize(Below(Step(s, a), m), Below(s, m));
  }

  lemma BeginStep(s: State, id: CreatorId, name: Name, n: nat, m: nat)
    requires Capped(s, n) && m >= MAX_TOPICS_LIMIT && |Step(s, Begin(id, name)).creators| <= n
    ensures |s.live| + |Below(Step(s, Begin(id, name)), m)| < m + n
  {
    var after := Step(s, Begin(id, name));
    if after != s {
      assert Rest(s.live, 0) == s.live;
      if |s.live| < m {
        SubsetSize(Below(after, m), after.creators.Keys);
      } else {
        assert Below(after, m) <= Below(s, m);
        SubsetSize(Below(after, m), Below(s, m));
      }
    }
  }

  lemma InsertStep(s: State, id: CreatorId, n: nat, m: nat)
    requires Capped(s, n) && m >= MAX_TOPICS_LIMIT
    ensures var after := Step(s, Insert(id)); |after.live| + |Below(after, m)| < m + n
  {
    var after := Step(s, Insert(id));
    if after != s {
      forall u | u in Below(after, m) ensures u in Below(s, m) - {id} {
        if s.creators[u].Scanning? {
          RestGrows(s.live, s.creators[id].name, s.creators[u].next);
        }
      }
      SubsetSize(Below(after, m), Below(s, m) - {id});
    }
  }

  lemma DeleteStep(s: State, name: Name, n: nat, m: nat)
    requires Capped(s, n) && m >= MAX_TOPICS_LIMIT
    ensures var after := Step(s, Delete(name)); |after.live| + |Below(after, m)| < m + n
  {
    var after := Step(s, Delete(name));
    if name in s.live {
      forall u | u in Below(after, m) ensures u in Below(s, m + 1) {
        if s.creators[u].Scanning? {
          RestGrows(s.live, name, s.creators[u].next);
        }
      }
      SubsetSize(Below(after, m), Below(s, m + 1));
    } else {
      assert after.live == s.live;
    }
  }

  lemma StepCapped(s: State, a: Action, n: nat)
    requires Capped(s, n) && |Step(s, a).creators| <= n
    ensures Capped(Step(s, a), n)
  {
    var after := Step(s, a);
    forall m: nat | m >= MAX_TOPICS_LIMIT ensures |after.live| + |Below(after, m)| < m + n {
      match a
      case Begin(id, name) => BeginStep(s, id, name, n, m);
      case Insert(id) => InsertStep(s, id, n, m);
      case Delete(name) => DeleteStep(s, name, n, m);
      case _ => ScanStep(s, a, n, m);
    }
  }

  lemma {:induction false} RunCapped(actions: seq<Action>, n: nat)
    requires n > 0 && AtMost(actions, n)
    ensures Capped(Run(actions), n)
  {
    if actions == [] {
      assert forall m: nat :: Below(State({}, map[]), m) == {};
    } else {
      RunCapped(actions[..|actions| - 1], n);
      StepCapped(Run(actions[..|actions| - 1]), actions[|actions| - 1], n);
    }
  }

  /**
   With at most `n` creations under way at once the topics never number more than the limit plus n - 1, deletions or
   not; with one at a time, never more than the limit.
   */
  lemma CapHolds(s: State, n: nat)
    requires n > 0 && Reaches(s, n)
    ensures |s.live| <= MAX_TOPICS_LIMIT + n - 1
  {
    var actions :| AtMost(actions, n) && Run(actions) == s;
    RunCapped(actions, n);
    assert |s.live| + |Below(s, MAX_TOPICS_LIMIT)| < MAX_TOPICS_LIMIT + n;
  }

  /** No creation under the empty name ever begins, so no such topic comes to be. */
  ghost predicate NamesGiven(s: State) {
    EMPTY_NAME !in s.live && forall id :: id in s.creators ==> s.creators[id].name != EMPTY_NAME
  }

  lemma {:induction false} RunNamesGiven(actions: seq<Action>)
    ensures NamesGiven(Run(actions))
  {
    if actions != [] {
      RunNamesGiven(actions[..|actions| - 1]);
    }
  }

  /** A deletion takes its name out and nothing else, whatever creations are under way. */
  lemma DeletionMakesRoom(s: State, name: Name)
    ensures var after := Step(s, Delete(name));
            && name !in after.live && after.creators == s.creators
            && forall other :: other != name ==> (other in after.live <==> other in s.live)
  {}

  // ---------------------------------------------------------------- the bound is reached

  lemma Extend(s: State, a: Action, n: nat)
    requires Reaches(s, n) && |Step(s, a).creators| <= n
    ensures Reaches(Step(s, a), n)
  {
    var actions :| AtMost(actions, n) && Run(actions) == s;
    var longer := actions + [a];
    assert longer[..|longer| - 1] == actions;
    assert AtMost(longer, n);
  }

  lemma {:induction false} ScanToEnd(s: State, id: CreatorId, n: nat)
    requires Reaches(s, n) && |s.creators| <= n
    requires id in s.creators && s.creators[id].Scanning? && s.creators[id].next <= SHARD_COUNT
    requires Projected(s.live, s.creators[id]) < MAX_TOPICS_LIMIT
    ensures Reaches(s.(creators := s.creators[id := Ready(s.creators[id].name, Projected(s.live, s.creators[id]))]), n)
    decreases SHARD_COUNT - s.creators[id].next
  {
    var c := s.creators[id];
    if c.next == SHARD_COUNT {
      assert Rest(s.live, SHARD_COUNT) == {};
      var after := Step(s, Compare(id));
      assert after.creators.Keys == s.creators.Keys;
      SameSize(after.creators, s.creators);
      Extend(s, Compare(id), n);
    } else {
      var after := Step(s, ReadShard(id));
      assert after.creators.Keys == s.creators.Keys;
      SameSize(after.creators, s.creators);
      Extend(s, ReadShard(id), n);
      RestSplits(s.live, c.next);
      ScanToEnd(after, id, n);
      var done := Ready(c.name, Projected(s.live, c));
      assert after.creators[id := done] == s.creators[id := done];
    }
  }

  lemma SameSize<K, V>(a: map<K, V>, b: map<K, V>)
    requires a.Keys == b.Keys
    ensures |a| == |b|
  {
    assert |a| == |a.Keys| && |b| == |b.Keys|;
  }

  /** A creation that finds fewer topics than the limit gets as far as its insertion. */
  lemma Prepare(s: State, id: CreatorId, name: Name, n: nat)
    requires Reaches(s, n) && id !in s.creators && |s.creators| < n && name != EMPTY_NAME && |s.live| < MAX_TOPICS_LIMIT
    ensures Reaches(s.(creators := s.creators[id := Ready(name, |s.live|)]), n)
  {
    BeginReaches(s, id, name, n);
    ProjectsTotal(s.live, name);
    ScanToEnd(Begun(s, id, name), id, n);
    ReadyInstead(s, id, name);
  }

  ghost function Begun(s: State, id: CreatorId, name: Name): State {
    s.(creators := s.creators[id := Scanning(name, 0, 0)])
  }

  lemma ProjectsTotal(live: set<Name>, name: Name)
    ensures Projected(live, Scanning(name, 0, 0)) == |live|
  {
    assert Rest(live, 0) == live;
  }

  lemma ReadyInstead(s: State, id: CreatorId, name: Name)
    ensures Begun(s, id, name).(creators := Begun(s, id, name).creators[id := Ready(name, |s.live|)])
            == s.(creators := s.creators[id := Ready(name, |s.live|)])
  {}

  lemma BeginReaches(s: State, id: CreatorId, name: Name, n: nat)
    requires Reaches(s, n) && id !in s.creators && |s.creators| < n && name != EMPTY_NAME
    ensures Reaches(Begun(s, id, name), n) && |Begun(s, id, name).creators| <= n
  {
    assert s.creators[id := Scanning(name, 0, 0)].Keys == s.creators.Keys + {id};
    Extend(s, Begin(id, name), n);
  }

  ghost function First(names: seq<Name>, k: nat): set<Name>
    requires k <= |names|
  {
    set i | 0 <= i < k :: names[i]
  }

  ghost predicate Usable(names: seq<Name>) {
    && (forall i, j :: 0 <= i < j < |names| ==> names[i] != names[j])
    && forall i :: 0 <= i < |names| ==> names[i] != EMPTY_NAME
  }

  lemma {:induction false} FirstSize(names: seq<Name>, k: nat)
    requires Usable(names) && k <= |names|
    ensures |First(names, k)| == k
  {
    if k > 0 {
      FirstSize(names, k - 1);
      assert First(names, k) == First(names, k - 1) + {names[k - 1]};
    }
  }

  /** One creation after the other, up to one below the limit. */
  lemma {:induction false} FillTo(names: seq<Name>, k: nat, n: nat)
    requires n > 0 && Usable(names) && k <= |names| && k <= MAX_TOPICS_LIMIT
    ensures Reaches(State(First(names, k), map[]), n)
  {
    if k == 0 {
      assert AtMost([], n) && Run([]) == State({}, map[]);
      assert First(names, 0) == {};
    } else {
      FillTo(names, k - 1, n);
      FillOne(names, k - 1, n);
    }
  }

  lemma FillOne(names: seq<Name>, k: nat, n: nat)
    requires n > 0 && Usable(names) && k < |names| && k < MAX_TOPICS_LIMIT
    requires Reaches(State(First(names, k), map[]), n)
    ensures Reaches(State(First(names, k + 1), map[]), n)
  {
    FirstSize(names, k);
    Prepare(State(First(names, k), map[]), 0, names[k], n);
    var ready := State(First(names, k), map[0 := Ready(names[k], k)]);
    InsertLast(names, k, ready);
    Extend(ready, Insert(0), n);
  }

  lemma InsertLast(names: seq<Name>, k: nat, ready: State)
    requires k < |names| && ready == State(First(names, k), map[0 := Ready(names[k], k)])
    ensures Step(ready, Insert(0)) == State(First(names, k + 1), map[])
  {
    assert First(names, k + 1) == First(names, k) + {names[k]};
    assert ready.creators - {0} == map[];
  }

  ghost function Ids(from: nat, upto: nat): (ids: set<CreatorId>)
    ensures forall id :: id in ids <==> from <= id < upto
    decreases upto - from
  {
    if from < upto then {from} + Ids(from + 1, upto) else {}
  }

  /** Creations `from` to `upto`, not including it, are ready to insert the names after the first MAX_TOPICS_LIMIT - 1. */
  ghost function Waiting(names: seq<Name>, from: nat, upto: nat): map<CreatorId, Creator>
    requires MAX_TOPICS_LIMIT - 1 + upto <= |names|
  {
    map id | id in Ids(from, upto) :: Ready(names[MAX_TOPICS_LIMIT - 1 + id], MAX_TOPICS_LIMIT - 1)
  }

  lemma {:induction false} IdsSize(from: nat, upto: nat)
    requires from <= upto
    ensures |Ids(from, upto)| == upto - from
    decreases upto - from
  {
    if from < upto {
      IdsSize(from + 1, upto);
    }
  }

  lemma WaitingSize(names: seq<Name>, from: nat, upto: nat)
    requires from <= upto && MAX_TOPICS_LIMIT - 1 + upto <= |names|
    ensures |Waiting(names, from, upto)| == upto - from
  {
    IdsSize(from, upto);
    assert Waiting(names, from, upto).Keys == Ids(from, upto);
    assert |Waiting(names, from, upto)| == |Waiting(names, from, upto).Keys|;
  }

  lemma NoneReady(names: seq<Name>, n: nat)
    requires 0 < n && Usable(names) && |names| == MAX_TOPICS_LIMIT - 1 + n
    ensures Reaches(State(First(names, MAX_TOPICS_LIMIT - 1), Waiting(names, 0, 0)), n)
  {
    FillTo(names, MAX_TOPICS_LIMIT - 1, n);
    assert Waiting(names, 0, 0) == map[];
  }

  lemma {:induction false} AllReady(names: seq<Name>, k: nat, n: nat)
    requires 0 < n && k <= n && Usable(names) && |names| == MAX_TOPICS_LIMIT - 1 + n
    ensures Reaches(State(First(names, MAX_TOPICS_LIMIT - 1), Waiting(names, 0, k)), n)
  {
    if k == 0 {
      NoneReady(names, n);
    } else {
      AllReady(names, k - 1, n);
      OneMoreReady(names, k - 1, n);
    }
  }

  lemma OneMoreReady(names: seq<Name>, k: nat, n: nat)
    requires k < n && Usable(names) && |names| == MAX_TOPICS_LIMIT - 1 + n
    requires Reaches(State(First(names, MAX_TOPICS_LIMIT - 1), Waiting(names, 0, k)), n)
    ensures Reaches(State(First(names, MAX_TOPICS_LIMIT - 1), Waiting(names, 0, k + 1)), n)
  {
    WaitingSize(names, 0, k);
    FirstSize(names, MAX_TOPICS_LIMIT - 1);
    WaitingOneMore(names, k);
    Prepare(State(First(names, MAX_TOPICS_LIMIT - 1), Waiting(names, 0, k)), k, names[MAX_TOPICS_LIMIT - 1 + k], n);
  }

  lemma WaitingOneMore(names: seq<Name>, k: nat)
    requires MAX_TOPICS_LIMIT + k <= |names|
    ensures k !in Waiting(names, 0, k)
    ensures Waiting(names, 0, k + 1)
            == Waiting(names, 0, k)[k := Ready(names[MAX_TOPICS_LIMIT - 1 + k], MAX_TOPICS_LIMIT - 1)]
  {}

  /** The first `k` of the `n` creations have inserted. */
  ghost function Inserted(names: seq<Name>, k: nat, n: nat): State
    requires k <= n && |names| == MAX_TOPICS_LIMIT - 1 + n
  {
    State(First(names, MAX_TOPICS_LIMIT - 1 + k), Waiting(names, k, n))
  }

  lemma InsertNext(names: seq<Name>, k: nat, n: nat)
    requires k < n && |names| == MAX_TOPICS_LIMIT - 1 + n
    ensures Step(Inserted(names, k, n), Insert(k)) == Inserted(names, k + 1, n)
    ensures |Inserted(names, k + 1, n).creators| <= n
  {
    WaitingSize(names, k + 1, n);
    WaitingLessOne(names, k, n);
    FirstMoreOne(names, MAX_TOPICS_LIMIT - 1 + k);
  }

  lemma WaitingLessOne(names: seq<Name>, k: nat, n: nat)
    requires k < n && |names| == MAX_TOPICS_LIMIT - 1 + n
    ensures Waiting(names, k, n) - {k} == Waiting(names, k + 1, n)
  {}

  lemma FirstMoreOne(names: seq<Name>, k: nat)
    requires k < |names|
    ensures First(names, k + 1) == First(names, k) + {names[k]}
  {  }

  lemma NoneInserted(names: seq<Name>, n: nat)
    requires 0 < n && Usable(names) && |names| == MAX_TOPICS_LIMIT - 1 + n
    ensures Reaches(Inserted(names, 0, n), n)
  {
    AllReady(names, n, n);
  }

  /** The remaining creations insert, one by one. */
  lemma {:induction false} InsertRemaining(names: seq<Name>, k: nat, n: nat)
    requires k <= n && |names| == MAX_TOPICS_LIMIT - 1 + n && Reaches(Inserted(names, k, n), n)
    ensures Reaches(Inserted(names, n, n), n)
    decreases n - k
  {
    if k < n {
      OneMoreInserted(names, k, n);
      InsertRemaining(names, k + 1, n);
    }
  }

  lemma OneMoreInserted(names: seq<Name>, k: nat, n: nat)
    requires k < n && |names| == MAX_TOPICS_LIMIT - 1 + n && Reaches(Inserted(names, k, n), n)
    ensures Reaches(Inserted(names, k + 1, n), n)
  {
    InsertNext(names, k, n);
    Extend(Inserted(names, k, n), Insert(k), n);
  }

  /** Some run with `n` creations at once ends with as many topics as CapHolds allows, whatever distinct names are used. */
  lemma CapIsReached(names: seq<Name>, n: nat)
    requires n > 0 && Usable(names) && |names| == MAX_TOPICS_LIMIT - 1 + n
    ensures exists s :: Reaches(s, n) && s.live == First(names, |names|) && |s.live| == MAX_TOPICS_LIMIT + n - 1
  {
    NoneInserted(names, n);
    InsertRemaining(names, 0, n);
    FirstSize(names, |names|);
    assert Inserted(names, n, n).live == First(names, |names|);
  }
}
