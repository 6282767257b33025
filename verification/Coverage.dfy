/**
 A subscription gets every message from the start of its replay on, whatever publishers do between its steps; and
 what reaches anyone has been stored first.
 */
module Coverage {
  import opened Model
  import opened Mailbox
  import opened ReplayLog
  import opened Delivery
  import opened DeliveryProofs

  /** The push numbered `number` was offered, by replay or by fan-out. */
  ghost predicate Got(offered: seq<Entry>, name: Name, number: nat) {
    exists e :: e in offered && e.Item? && e.name == name && e.number == number
  }

  /** The push is still to come in the replay under way. */
  ghost predicate Pending(pc: Pc, name: Name, number: nat) {
    pc.Replaying? && pc.name == name && exists r :: r in pc.rest && r.number == number
  }

  /** The push went through another object, or its publisher has yet to take its snapshot, never will, or still has `c` to send to. */
  ghost predicate Unsent(s: State, name: Name, tid: TopicId, c: ClientId, number: nat)
    requires number < |HistoryOf(s, name)|
  {
    var push := HistoryOf(s, name)[number];
    || push.tid != tid
    || push.status == Pushed || push.status == Trimmed || push.status == Counted || push.status == Failed
    || (push.status == Sending && AwaitedBy(PcOf(s, push.publisher), name, c, number))
  }

  predicate AwaitedBy(pc: Pc, name: Name, c: ClientId, number: nat) {
    pc.PubSending? && pc.name == name && pc.number == number && c in pc.waiting
  }

  ghost predicate Covers(s: State, e: Session, i: nat)
    requires e.c in s.clients && i < |HistoryOf(s, e.name)|
  {
    || Got(s.clients[e.c].box.offered, e.name, i)
    || (i < e.upto && Pending(s.clients[e.c].pc, e.name, i))
    || (i >= e.upto && Unsent(s, e.name, e.tid, e.c, i))
  }

  ghost predicate InForce(s: State, e: Session) {
    && e.c in s.clients && e.tid < |s.objects| && e.c in s.objects[e.tid].subs
    && e.from <= e.upto <= |HistoryOf(s, e.name)|
  }

  ghost predicate SessionOk(s: State, e: Session) {
    && InForce(s, e)
    && forall i {:trigger HistoryOf(s, e.name)[i]} :: e.from <= i < |HistoryOf(s, e.name)| ==> Covers(s, e, i)
  }

  ghost predicate SessionsOk(s: State) {
    forall e :: e in s.sessions ==> SessionOk(s, e)
  }

  // ---------------------------------------------------------------- one step

  lemma OfferedGrows(s: State, a: Action, c: ClientId)
    requires c in s.clients
    ensures c in Step(s, a).clients
    ensures var was, now := s.clients[c].box.offered, Step(s, a).clients[c].box.offered;
            now == was + (if OfferOf(s, a, c).Some? then [OfferOf(s, a, c).value] else [])
  {
    BoxChange(s, a, c);
  }

  /** A replayed message leaves the replay only by being offered. */
  ghost predicate ReplayAdvances(s: State, a: Action, c: ClientId)
    requires c in s.clients
  {
    var was := s.clients[c].pc;
    was.Replaying? && was.rest != [] ==>
      || PcOf(Step(s, a), c) == was
      || (PcOf(Step(s, a), c) == Replaying(was.name, was.rest[1..])
          && OfferOf(s, a, c) == Some(Item(was.name, was.rest[0].number, was.rest[0].message, Replay)))
  }

  lemma OwnAdvances(s: State, a: Action, c: ClientId)
    requires c in s.clients && Own(a)
    ensures ReplayAdvances(s, a, c)
  {}

  lemma PublisherAdvances(s: State, a: Action, c: ClientId)
    requires c in s.clients && MovesPublish(a)
    ensures ReplayAdvances(s, a, c)
  {
    PublishMoves(s, a);
    if c == a.c && s.clients[c].pc.Replaying? {
      ReplayingMakesNoPublish(s, a);
    }
  }

  lemma ReplayingMakesNoPublish(s: State, a: Action)
    requires MovesPublish(a) && a.c in s.clients && s.clients[a.c].pc.Replaying?
    ensures Step(s, a) == s
  {}

  lemma OtherAdvances(s: State, a: Action, c: ClientId)
    requires c in s.clients && !Own(a) && !MovesPublish(a)
    ensures ReplayAdvances(s, a, c)
  {
    match a
    case Evict(b, tid) => EvictAdvances(s, b, tid, c);
    case Add(b) => AddAdvances(s, b, c);
    case FetchReplay(b, reply) => FetchAdvances(s, b, reply, c);
    case SendOne(b, to) => SendOneAdvances(s, b, to, c);
    case _ => PlainTasks(s, a);
  }

  lemma EvictAdvances(s: State, b: ClientId, tid: TopicId, c: ClientId)
    requires c in s.clients
    ensures ReplayAdvances(s, Evict(b, tid), c)
  {}

  lemma AddAdvances(s: State, b: ClientId, c: ClientId)
    requires c in s.clients
    ensures ReplayAdvances(s, Add(b), c)
  {}

  lemma FetchAdvances(s: State, b: ClientId, reply: Reply, c: ClientId)
    requires c in s.clients
    ensures ReplayAdvances(s, FetchReplay(b, reply), c)
  {}

  lemma SendOneAdvances(s: State, b: ClientId, to: ClientId, c: ClientId)
    requires c in s.clients
    ensures ReplayAdvances(s, SendOne(b, to), c)
  {}

  lemma PendingStep(s: State, a: Action, c: ClientId, name: Name, i: nat)
    requires c in s.clients && Pending(s.clients[c].pc, name, i)
    ensures c in Step(s, a).clients
    ensures Pending(Step(s, a).clients[c].pc, name, i) || Got(Step(s, a).clients[c].box.offered, name, i)
  {
    OfferedGrows(s, a, c);
    if Own(a) {
      OwnAdvances(s, a, c);
    } else if MovesPublish(a) {
      PublisherAdvances(s, a, c);
    } else {
      OtherAdvances(s, a, c);
    }
    assert ReplayAdvances(s, a, c);
    var was := s.clients[c].pc;
    var r :| r in was.rest && r.number == i;
    if PcOf(Step(s, a), c) != was {
      if r == was.rest[0] {
        var item := OfferOf(s, a, c).value;
        assert item in Step(s, a).clients[c].box.offered;
      } else {
        assert r in was.rest[1..];
      }
    }
  }

  lemma GotStep(s: State, a: Action, c: ClientId, name: Name, i: nat)
    requires c in s.clients && Got(s.clients[c].box.offered, name, i)
    ensures c in Step(s, a).clients && Got(Step(s, a).clients[c].box.offered, name, i)
  {
    OfferedGrows(s, a, c);
    var e :| e in s.clients[c].box.offered && e.Item? && e.name == name && e.number == i;
    assert e in Step(s, a).clients[c].box.offered;
  }

  /** A fan-out under way loses a client it waits for only by sending to it, and ends only when it waits for nobody. */
  ghost predicate SendingAdvances(s: State, a: Action, b: ClientId)
  {
    var was, now := PcOf(s, b), PcOf(Step(s, a), b);
    was.PubSending? ==>
      || now == was
      || (a.SendOne? && a.c == b && now == was.(waiting := was.waiting - {a.to}) && a.to in s.clients
          && OfferOf(s, a, a.to) == Some(Item(was.name, was.number, was.message, FanOut)))
      || (a.SendDone? && a.c == b && was.waiting == {})
  }

  lemma OwnSending(s: State, a: Action, b: ClientId)
    requires Own(a)
    ensures SendingAdvances(s, a, b)
  {}

  lemma PublisherSending(s: State, a: Action, b: ClientId)
    requires MovesPublish(a)
    ensures SendingAdvances(s, a, b)
  {
    PublishMoves(s, a);
    if a.c == b && PcOf(s, b).PubSending? {
      SenderEnds(s, a);
    }
  }

  lemma SenderEnds(s: State, a: Action)
    requires MovesPublish(a) && PcOf(s, a.c).PubSending?
    ensures Step(s, a) == s || (a.SendDone? && PcOf(s, a.c).waiting == {})
  {}

  lemma OtherSending(s: State, a: Action, b: ClientId)
    requires !Own(a) && !MovesPublish(a)
    ensures SendingAdvances(s, a, b)
  {}

  lemma AwaitedStep(s: State, a: Action, b: ClientId, name: Name, c: ClientId, i: nat)
    requires c in s.clients && AwaitedBy(PcOf(s, b), name, c, i)
    ensures c in Step(s, a).clients
    ensures AwaitedBy(PcOf(Step(s, a), b), name, c, i) || Got(Step(s, a).clients[c].box.offered, name, i)
  {
    OfferedGrows(s, a, c);
    if Own(a) {
      OwnSending(s, a, b);
    } else if MovesPublish(a) {
      PublisherSending(s, a, b);
    } else {
      OtherSending(s, a, b);
    }
    assert SendingAdvances(s, a, b);
    if a.SendOne? && a.c == b && a.to == c && PcOf(Step(s, a), b) != PcOf(s, b) {
      var item := OfferOf(s, a, c).value;
      assert item in Step(s, a).clients[c].box.offered;
    }
  }

  /** The snapshot a fan-out works from is the object's list of subscribers. */
  lemma SnapshotWaits(s: State, c: ClientId)
    requires ChangeOf(s, Snapshot(c)).Marks?
    ensures var was, now := s.clients[c].pc, PcOf(Step(s, Snapshot(c)), c);
            && was.PubCounted? && was.tid < |s.objects|
            && now == PubSending(was.name, was.tid, was.message, was.number, s.objects[was.tid].subs)
  {}

  /** A publish that leaves its sending state waits for nobody, and one that enters it waits for all who are listed. */
  lemma MarkedUnsent(s: State, a: Action, e: Session)
    requires Publishers(s) && InForce(s, e) && ChangeOf(s, a).Marks? && ChangeOf(s, a).name == e.name
    ensures var i := ChangeOf(s, a).number;
            && i < |HistoryOf(s, e.name)| && i < |HistoryOf(Step(s, a), e.name)|
            && (Unsent(s, e.name, e.tid, e.c, i) ==> Unsent(Step(s, a), e.name, e.tid, e.c, i))
  {
    HistoryStep(s, a, e.name);
    MarkReplaces(s, a);
    if a.Snapshot? {
      SnapshotUnsent(s, a.c, e);
    } else if a.SendDone? {
      assert Recorded(s, a.c);
    }
  }

  lemma SnapshotUnsent(s: State, b: ClientId, e: Session)
    requires Publishers(s) && InForce(s, e) && ChangeOf(s, Snapshot(b)).Marks? && ChangeOf(s, Snapshot(b)).name == e.name
    ensures var i := ChangeOf(s, Snapshot(b)).number;
            i < |HistoryOf(Step(s, Snapshot(b)), e.name)| && Unsent(Step(s, Snapshot(b)), e.name, e.tid, e.c, i)
  {
    HistoryStep(s, Snapshot(b), e.name);
    MarkReplaces(s, Snapshot(b));
    assert Recorded(s, b);
    SnapshotWaits(s, b);
  }

  lemma UnsentStep(s: State, a: Action, e: Session, i: nat)
    requires Publishers(s) && InForce(s, e) && i < |HistoryOf(s, e.name)| && Unsent(s, e.name, e.tid, e.c, i)
    ensures e.c in Step(s, a).clients && i < |HistoryOf(Step(s, a), e.name)|
    ensures Unsent(Step(s, a), e.name, e.tid, e.c, i) || Got(Step(s, a).clients[e.c].box.offered, e.name, i)
  {
    ClientsGrow(s, a);
    HistoryStep(s, a, e.name);
    var was, change := HistoryOf(s, e.name)[i], ChangeOf(s, a);
    if change.Marks? && change.name == e.name && change.number == i {
      MarkedUnsent(s, a, e);
    } else {
      assert HistoryOf(Step(s, a), e.name)[i] == was;
      if was.tid == e.tid && was.status == Sending {
        AwaitedStep(s, a, was.publisher, e.name, e.c, i);
      }
    }
  }

  lemma CoversStep(s: State, a: Action, e: Session, i: nat)
    requires Publishers(s) && InForce(s, e) && i < |HistoryOf(s, e.name)| && Covers(s, e, i)
    ensures e.c in Step(s, a).clients && i < |HistoryOf(Step(s, a), e.name)| && Covers(Step(s, a), e, i)
  {
    HistoryStep(s, a, e.name);
    if Got(s.clients[e.c].box.offered, e.name, i) {
      GotStep(s, a, e.c, e.name, i);
    } else if i < e.upto {
      PendingStep(s, a, e.c, e.name, i);
    } else {
      UnsentStep(s, a, e, i);
    }
  }

  /** A subscription ends only with its listing, and only a fetch starts one. */
  ghost predicate SessionFrom(s: State, a: Action, e: Session) {
    || (e in s.sessions && (InForce(s, e) ==> e.tid < |Step(s, a).objects| && e.c in Step(s, a).objects[e.tid].subs))
    || (a.FetchReplay? && a.c == e.c && a.c in s.clients && s.clients[a.c].pc.SubAdded?
        && var pc := s.clients[a.c].pc;
        && pc.lastN > 0 && e.tid == pc.tid < |s.objects| && e.c in s.objects[e.tid].subs && e.name == pc.name
        && var fetched := Fetched(s, pc.name, pc.lastN);
        && e.upto == |HistoryOf(s, pc.name)| && e.from == e.upto - |fetched|
        && Step(s, a).objects == s.objects && PcOf(Step(s, a), e.c) == Replaying(e.name, fetched))
  }

  lemma OwnSessions(s: State, a: Action, e: Session)
    requires Own(a) && e in Step(s, a).sessions
    ensures SessionFrom(s, a, e)
  {
    var client := OwnMove(s, a);
  }

  lemma PublisherSessions(s: State, a: Action, e: Session)
    requires MovesPublish(a) && e in Step(s, a).sessions
    ensures SessionFrom(s, a, e)
  {
    PublishMoves(s, a);
    SameListings(s, a);
  }

  lemma PlainSessions(s: State, a: Action, e: Session)
    requires Plain(a) && e in Step(s, a).sessions
    ensures SessionFrom(s, a, e)
  {
    if a.Remove? {
      RemoveSessions(s, a.c, a.tid, e);
    } else {
      SameListingsOf(s, a);
    }
  }

  lemma RemoveSessions(s: State, c: ClientId, tid: TopicId, e: Session)
    requires e in DoTakeOff(s, c, tid).sessions
    ensures e in s.sessions && |DoTakeOff(s, c, tid).objects| == |s.objects|
    ensures InForce(s, e) ==> e.c in DoTakeOff(s, c, tid).objects[e.tid].subs
  {}

  lemma SameListingsOf(s: State, a: Action)
    requires Plain(a) && !a.Remove?
    ensures Step(s, a).sessions == s.sessions && |s.objects| <= |Step(s, a).objects|
    ensures forall t :: 0 <= t < |s.objects| ==> Step(s, a).objects[t] == s.objects[t]
  {}

  lemma EvictSessions(s: State, c: ClientId, tid: TopicId, e: Session)
    requires e in DoEvict(s, c, tid).sessions
    ensures SessionFrom(s, Evict(c, tid), e)
  {}

  lemma AddSessions(s: State, c: ClientId, e: Session)
    requires e in DoAdd(s, c).sessions
    ensures SessionFrom(s, Add(c), e)
  {}

  lemma FetchSessions(s: State, c: ClientId, reply: Reply, e: Session)
    requires e in DoFetch(s, c, reply).sessions
    ensures SessionFrom(s, FetchReplay(c, reply), e)
  {
    FetchObjects(s, c, reply);
    if e !in s.sessions {
      FetchNewSession(s, c, reply, e);
    }
  }

  lemma FetchObjects(s: State, c: ClientId, reply: Reply)
    ensures DoFetch(s, c, reply).objects == s.objects
  {}

  lemma FetchNewSession(s: State, c: ClientId, reply: Reply, e: Session)
    requires e in DoFetch(s, c, reply).sessions && e !in s.sessions
    ensures SessionFrom(s, FetchReplay(c, reply), e)
  {}

  lemma SendOneSessions(s: State, c: ClientId, to: ClientId, e: Session)
    requires e in DoSendOne(s, c, to).sessions
    ensures SessionFrom(s, SendOne(c, to), e)
  {}

  lemma SessionOrigin(s: State, a: Action, e: Session)
    requires e in Step(s, a).sessions
    ensures SessionFrom(s, a, e)
  {
    if Own(a) {
      OwnSessions(s, a, e);
    } else if MovesPublish(a) {
      PublisherSessions(s, a, e);
    } else if Plain(a) {
      PlainSessions(s, a, e);
    } else {
      match a
      case Evict(c, tid) => EvictSessions(s, c, tid, e);
      case Add(c) => AddSessions(s, c, e);
      case FetchReplay(c, reply) => FetchSessions(s, c, reply, e);
      case SendOne(c, to) => SendOneSessions(s, c, to, e);
    }
  }

  lemma SessionStep(s: State, a: Action, e: Session)
    requires Publishers(s) && ListsOk(s) && SessionsOk(s) && e in Step(s, a).sessions
    ensures SessionOk(Step(s, a), e)
  {
    SessionOrigin(s, a, e);
    if e in s.sessions {
      assert SessionOk(s, e);
      SessionStays(s, a, e);
    } else {
      NewSession(s, a, e);
    }
  }

  lemma SessionStays(s: State, a: Action, e: Session)
    requires Publishers(s) && SessionOk(s, e)
    requires e.tid < |Step(s, a).objects| && e.c in Step(s, a).objects[e.tid].subs
    ensures SessionOk(Step(s, a), e)
  {
    var after := Step(s, a);
    ClientsGrow(s, a);
    HistoryStep(s, a, e.name);
    forall i | e.from <= i < |HistoryOf(after, e.name)| ensures Covers(after, e, i) {
      if i < |HistoryOf(s, e.name)| {
        var push := HistoryOf(s, e.name)[i];
        assert Covers(s, e, i);
        CoversStep(s, a, e, i);
      } else {
        NewPushUncovered(s, a, e, i);
      }
    }
  }

  lemma NewPushUncovered(s: State, a: Action, e: Session, i: nat)
    requires InForce(s, e) && e.c in Step(s, a).clients && |HistoryOf(s, e.name)| <= i < |HistoryOf(Step(s, a), e.name)|
    ensures Covers(Step(s, a), e, i)
  {
    HistoryStep(s, a, e.name);
    assert Unsent(Step(s, a), e.name, e.tid, e.c, i);
  }

  lemma NewSession(s: State, a: Action, e: Session)
    requires ListsOk(s) && SessionFrom(s, a, e) && e !in s.sessions
    ensures SessionOk(Step(s, a), e)
  {
    var after := Step(s, a);
    var pc := s.clients[a.c].pc;
    ClientsGrow(s, a);
    HistoryStep(s, a, e.name);
    FetchedOk(s, e.name, pc.lastN);
    var fetched := Fetched(s, pc.name, pc.lastN);
    forall i | e.from <= i < |HistoryOf(after, e.name)| ensures Covers(after, e, i) {
      var r := fetched[i - e.from];
      assert r in after.clients[e.c].pc.rest && r.number == i;
      assert Pending(after.clients[e.c].pc, e.name, i);
    }
  }

  lemma SessionsStep(s: State, a: Action)
    requires Publishers(s) && ListsOk(s) && SessionsOk(s)
    ensures SessionsOk(Step(s, a))
  {
    forall e | e in Step(s, a).sessions ensures SessionOk(Step(s, a), e) {
      SessionStep(s, a, e);
    }
  }

  // ---------------------------------------------------------------- every run

  ghost predicate Inv(s: State) {
    Refs(s) && Records(s) && Publishers(s) && ListsOk(s) && Counts(s) && Items(s) && SessionsOk(s)
  }

  lemma StartOk()
    ensures Inv(START)
  {
    forall n ensures ListOk(START, n) && HistoryOf(START, n) == [] {
      assert HistoryOf(START, n) == [] && StoredList(START, n) == [];
    }
  }

  /** Every interleaving keeps the invariant. */
  lemma {:induction false} RunInv(actions: seq<Action>)
    ensures Inv(Run(actions))
  {
    if actions == [] {
      StartOk();
    } else {
      RunInv(actions[..|actions| - 1]);
      StepInv(Run(actions[..|actions| - 1]), actions[|actions| - 1]);
    }
  }

  lemma StepInv(s: State, a: Action)
    requires Inv(s)
    ensures Inv(Step(s, a))
  {
    RefsStep(s, a);
    RecordsStep(s, a);
    PublishersStep(s, a);
    ListsStep(s, a);
    CountsStep(s, a);
    ItemsStep(s, a);
    SessionsStep(s, a);
  }

  function Continue(s: State, later: seq<Action>): State {
    if later == [] then s else Step(Continue(s, later[..|later| - 1]), later[|later| - 1])
  }

  /** `now` may follow on `s`. */
  ghost predicate LeadsTo(s: State, now: State) {
    exists later :: Continue(s, later) == now
  }

  lemma {:induction false} ContinueFirst(s: State, a: Action, later: seq<Action>)
    ensures Continue(s, [a] + later) == Continue(Step(s, a), later)
    ensures LeadsTo(s, Continue(Step(s, a), later))
  {
    if later == [] {
      assert [a] + later == [a] && [a][..0] == [];
    } else {
      var fewer := later[..|later| - 1];
      ContinueFirst(s, a, fewer);
      assert ([a] + later)[..|[a] + later| - 1] == [a] + fewer;
    }
  }

  lemma {:induction false} ContinueInv(s: State, later: seq<Action>)
    requires Inv(s)
    ensures Inv(Continue(s, later))
  {
    if later != [] {
      ContinueInv(s, later[..|later| - 1]);
      StepInv(Continue(s, later[..|later| - 1]), later[|later| - 1]);
    }
  }

  /** What some run leads to. */
  ghost predicate Reachable(s: State) {
    exists actions :: Run(actions) == s
  }

  lemma ReachableStep(s: State, a: Action)
    requires Reachable(s)
    ensures Reachable(Step(s, a))
  {
    var actions :| Run(actions) == s;
    assert (actions + [a])[..|actions|] == actions;
    assert Run(actions + [a]) == Step(s, a);
  }

  lemma ReachableInv(s: State)
    requires Reachable(s)
    ensures Inv(s)
  {
    var actions :| Run(actions) == s;
    RunInv(actions);
  }

  // ---------------------------------------------------------------- no gap

  /** Was sent the message of the push numbered `i`, by replay or by fan-out. */
  ghost predicate WasOffered(s: State, c: ClientId, name: Name, i: nat)
    requires c in s.clients && i < |HistoryOf(s, name)|
  {
    exists e :: e in s.clients[c].box.offered && e.Item? && e.name == name && e.number == i
                && e.message == HistoryOf(s, name)[i].message
  }

  lemma GotMeansOffered(s: State, c: ClientId, name: Name, i: nat)
    requires Items(s) && c in s.clients && i < |HistoryOf(s, name)| && Got(s.clients[c].box.offered, name, i)
    ensures WasOffered(s, c, name, i)
  {
    assert ClientOk(s, c);
    var e :| e in s.clients[c].box.offered && e.Item? && e.name == name && e.number == i;
    assert EntryOk(s, e);
  }

  predicate TakesOff(a: Action, c: ClientId, tid: TopicId) {
    (a.Remove? || a.Evict?) && a.c == c && a.tid == tid
  }

  lemma SessionLasts(s: State, a: Action, e: Session)
    requires e in s.sessions && !TakesOff(a, e.c, e.tid)
    ensures e in Step(s, a).sessions
  {
    if MovesPublish(a) {
      PublishMoves(s, a);
    }
  }

  lemma {:induction false} SessionLastsOn(s: State, later: seq<Action>, e: Session)
    requires e in s.sessions && forall a :: a in later ==> !TakesOff(a, e.c, e.tid)
    ensures e in Continue(s, later).sessions
  {
    if later != [] {
      SessionLastsOn(s, later[..|later| - 1], e);
      SessionLasts(Continue(s, later[..|later| - 1]), later[|later| - 1], e);
    }
  }

  /** The last `n` pushes, or all that no expiry has lost, oldest first. */
  function LastPushes(s: State, name: Name, n: nat): seq<Stored> {
    var kept := |HistoryOf(s, name)| - BaseOf(s, name);
    LastN(Numbered(HistoryOf(s, name)), if kept < 0 then 0 else Min(n, kept))
  }

  /** The first push a replay of up to `n` covers, if the list holds what it should. */
  function ReplayFrom(s: State, name: Name, n: nat): int {
    var pushes := |HistoryOf(s, name)|;
    if pushes - n < BaseOf(s, name) then BaseOf(s, name) else pushes - n
  }

  /** What a fetch returns reaches back at least as far as min(n, 100) of the pushes that are kept. */
  lemma FetchReachesBack(s: State, name: Name, n: int)
    requires ListOk(s, name) && n >= 1
    ensures |Fetched(s, name, n)| <= |HistoryOf(s, name)|
    ensures |HistoryOf(s, name)| - |Fetched(s, name, n)| <= ReplayFrom(s, name, Min(n, REPLAY_BUFFER_SIZE)) <= |HistoryOf(s, name)|
  {
    FetchedOk(s, name, n);
    ListReachesBack(s, name);
  }

  lemma ListReachesBack(s: State, name: Name)
    requires ListOk(s, name)
    ensures BaseOf(s, name) <= |HistoryOf(s, name)|
    ensures Min(REPLAY_BUFFER_SIZE, |HistoryOf(s, name)| - BaseOf(s, name)) <= |StoredList(s, name)|
  {}

  /** The subscription that the fetch of `c` opens. */
  function OpenedBy(s: State, c: ClientId): Session
    requires c in s.clients && s.clients[c].pc.SubAdded?
    requires var pc := s.clients[c].pc; |Fetched(s, pc.name, pc.lastN)| <= |HistoryOf(s, pc.name)|
  {
    var pc := s.clients[c].pc;
    var upto := |HistoryOf(s, pc.name)|;
    Session(c, pc.name, pc.tid, upto - |Fetched(s, pc.name, pc.lastN)|, upto)
  }

  lemma FetchOpensSession(s: State, c: ClientId)
    requires c in s.clients && s.clients[c].pc.SubAdded? && s.clients[c].pc.lastN > 0
    requires var pc := s.clients[c].pc;
             && pc.tid < |s.objects| && c in s.objects[pc.tid].subs
             && |Fetched(s, pc.name, pc.lastN)| <= |HistoryOf(s, pc.name)|
    ensures OpenedBy(s, c) in Step(s, FetchReplay(c, Applied)).sessions
  {}

  /** A client on its way to its fetch, listed at the object it subscribed to. */
  predicate AboutToFetch(s: State, c: ClientId) {
    && c in s.clients && s.clients[c].pc.SubAdded? && s.clients[c].pc.lastN >= 1
    && var pc := s.clients[c].pc;
    pc.tid < |s.objects| && c in s.objects[pc.tid].subs
  }

  lemma SessionCovers(s: State, e: Session, i: nat)
    requires Items(s) && SessionOk(s, e) && e.from <= i < |HistoryOf(s, e.name)|
    ensures i < e.upto && !(s.clients[e.c].pc.Replaying? && s.clients[e.c].pc.rest != []) ==> WasOffered(s, e.c, e.name, i)
    ensures e.upto <= i && HistoryOf(s, e.name)[i].tid == e.tid && HistoryOf(s, e.name)[i].status == Sent ==>
              WasOffered(s, e.c, e.name, i)
  {
    var push := HistoryOf(s, e.name)[i];
    assert Covers(s, e, i);
    if Got(s.clients[e.c].box.offered, e.name, i) {
      GotMeansOffered(s, e.c, e.name, i);
    }
  }

  /** `now` follows on the fetch of `c`, which is not taken off the object it is listed at. */
  ghost predicate FetchedThen(s: State, c: ClientId, now: State)
    requires AboutToFetch(s, c)
  {
    exists later :: && (forall a :: a in later ==> !TakesOff(a, c, s.clients[c].pc.tid))
                    && Continue(Step(s, FetchReplay(c, Applied)), later) == now
  }

  /**
   No gap. A client listed at a topic object fetches a replay of up to `n` messages, any n >= 1, and the call succeeds.
   In every run that follows in which it is not taken off that object, whatever publishers, creators, deleters and
   expiry do: once its replay loop is over it has been offered every push from the min(n, 100)-th newest at the fetch
   on, and it has been offered every later push through that object whose publish has ended well.
   */
  lemma NoGap(s: State, c: ClientId, now: State, i: nat)
    requires Reachable(s) && AboutToFetch(s, c) && FetchedThen(s, c, now)
    requires ReplayFrom(s, s.clients[c].pc.name, Min(s.clients[c].pc.lastN, REPLAY_BUFFER_SIZE)) <= i
    ensures var pc := s.clients[c].pc;
            && c in now.clients && |HistoryOf(s, pc.name)| <= |HistoryOf(now, pc.name)|
            && (i < |HistoryOf(s, pc.name)| && !(now.clients[c].pc.Replaying? && now.clients[c].pc.rest != []) ==>
                  WasOffered(now, c, pc.name, i))
            && (|HistoryOf(s, pc.name)| <= i < |HistoryOf(now, pc.name)|
                && HistoryOf(now, pc.name)[i].tid == pc.tid && HistoryOf(now, pc.name)[i].status == Sent ==>
                  WasOffered(now, c, pc.name, i))
  {
    var e := SessionAfter(s, c, now);
    if i < |HistoryOf(now, e.name)| {
      SessionCovers(now, e, i);
    }
  }

  lemma SessionAfter(s: State, c: ClientId, now: State) returns (e: Session)
    requires Reachable(s) && AboutToFetch(s, c) && FetchedThen(s, c, now)
    ensures Inv(now) && SessionOk(now, e)
    ensures var pc := s.clients[c].pc;
            && e.c == c && e.name == pc.name && e.tid == pc.tid && e.upto == |HistoryOf(s, pc.name)|
            && e.from <= ReplayFrom(s, pc.name, Min(pc.lastN, REPLAY_BUFFER_SIZE))
            && e.from == |HistoryOf(s, pc.name)| - Min(pc.lastN, |StoredList(s, pc.name)|)
    ensures LeadsTo(s, now)
  {
    var pc, fetched := s.clients[c].pc, Step(s, FetchReplay(c, Applied));
    var later :| (forall a :: a in later ==> !TakesOff(a, c, pc.tid)) && Continue(fetched, later) == now;
    ReachableInv(s);
    assert ListOk(s, pc.name);
    FetchReachesBack(s, pc.name, pc.lastN);
    FetchOpensSession(s, c);
    e := OpenedBy(s, c);
    StepInv(s, FetchReplay(c, Applied));
    ContinueInv(fetched, later);
    SessionLastsOn(fetched, later, e);
    FetchedOk(s, pc.name, pc.lastN);
    ContinueFirst(s, FetchReplay(c, Applied), later);
  }

  /**
   If the topic is never deleted and created again, no push is left out: while only one object has ever had the name,
   every later push whose publish has ended well was offered.
   */
  lemma NoGapWithOneObject(s: State, c: ClientId, now: State, i: nat)
    requires Reachable(s) && AboutToFetch(s, c) && FetchedThen(s, c, now)
    requires var pc := s.clients[c].pc;
             && (forall t :: 0 <= t < |now.objects| && now.objects[t].name == pc.name ==> t == pc.tid)
             && |HistoryOf(s, pc.name)| <= i < |HistoryOf(now, pc.name)| && HistoryOf(now, pc.name)[i].status == Sent
    ensures c in now.clients && WasOffered(now, c, s.clients[c].pc.name, i)
  {
    var e := SessionAfter(s, c, now);
    var push := HistoryOf(now, e.name)[i];
    assert push.tid < |now.objects| && now.objects[push.tid].name == e.name;
    SessionCovers(now, e, i);
  }

  // ---------------------------------------------------------------- stored before offered

  /** The push that `e` carries was made, for the topic `e` names; a fan-out has had its save succeed. */
  ghost predicate WasStored(s: State, e: Entry) {
    e.Item? ==>
      && e.number < |HistoryOf(s, e.name)| && HistoryOf(s, e.name)[e.number].message == e.message
      && (e.via == FanOut ==> HistoryOf(s, e.name)[e.number].status in {Sending, Sent})
  }

  /** Persist before deliver: what was offered, is queued, is being written or is on the wire was pushed earlier. */
  lemma StoredBeforeOffered(s: State, c: ClientId)
    requires Reachable(s) && c in s.clients
    ensures var box := s.clients[c].box;
            && (forall e :: e in box.offered ==> WasStored(s, e))
            && (forall e :: e in box.accepted ==> WasStored(s, e))
            && (forall f :: f in box.wire && f.Data? ==> WasStored(s, f.item))
            && (box.writing ==> forall e :: e in box.queue ==> WasStored(s, e))
            && (box.inFlight.Some? ==> WasStored(s, box.inFlight.value))
  {
    ReachableInv(s);
    StoredFirst(s, c);
  }

  lemma StoredFirst(s: State, c: ClientId)
    requires Items(s) && c in s.clients
    ensures var box := s.clients[c].box;
            && (forall e :: e in box.offered ==> WasStored(s, e))
            && (forall e :: e in box.accepted ==> e in box.offered)
            && (forall f :: f in box.wire && f.Data? ==> f.item in box.accepted)
            && (box.writing ==> forall e :: e in box.queue ==> e in box.accepted)
            && (box.inFlight.Some? ==> box.inFlight.value in box.accepted)
  {
    var box := s.clients[c].box;
    assert ClientOk(s, c);
    forall e | e in box.offered ensures WasStored(s, e) {
      assert EntryOk(s, e);
    }
    QueueIsAccepted(box);
  }

  lemma QueueIsAccepted<T>(box: Box<T>)
    requires BoxOk(box)
    ensures forall e :: e in box.accepted ==> e in box.offered
    ensures forall f :: f in box.wire && f.Data? ==> f.item in box.accepted
    ensures box.writing ==> forall e :: e in box.queue ==> e in box.accepted
    ensures box.inFlight.Some? ==> box.inFlight.value in box.accepted
  {
    if box.writing {
      var held := if box.inFlight.Some? then [box.inFlight.value] else [];
      assert forall e :: e in held + box.queue ==> e in box.accepted[Written(box)..];
      assert forall e :: e in box.queue ==> e in held + box.queue;
      assert forall e :: e in held ==> e in held + box.queue;
      if box.inFlight.Some? {
        assert held[0] == box.inFlight.value && box.inFlight.value in held;
      }
    }
  }

  /** A topic object's message count is the number of pushes through it whose save succeeded and that it has counted. */
  lemma CountIsCountedPushes(s: State, t: nat)
    requires Reachable(s) && t < |s.objects|
    ensures var name := s.objects[t].name;
            && s.objects[t].count == CountIf(HistoryOf(s, name), CountedBy(t))
            && s.objects[t].count <= |HistoryOf(s, name)|
  {
    ReachableInv(s);
    CountBound(HistoryOf(s, s.objects[t].name), CountedBy(t));
  }

  lemma FailedStep(s: State, a: Action, name: Name, k: nat)
    requires Publishers(s) && k < |HistoryOf(s, name)| && HistoryOf(s, name)[k].status == Failed
    ensures k < |HistoryOf(Step(s, a), name)| && HistoryOf(Step(s, a), name)[k] == HistoryOf(s, name)[k]
  {
    HistoryStep(s, a, name);
    if ChangeOf(s, a).Marks? {
      MarkReplaces(s, a);
    }
  }

  lemma {:induction false} StaysFailed(s: State, later: seq<Action>, name: Name, k: nat)
    requires Inv(s) && k < |HistoryOf(s, name)| && HistoryOf(s, name)[k].status == Failed
    ensures var now := Continue(s, later); k < |HistoryOf(now, name)| && HistoryOf(now, name)[k] == HistoryOf(s, name)[k]
  {
    if later != [] {
      var fewer := later[..|later| - 1];
      StaysFailed(s, fewer, name, k);
      ContinueInv(s, fewer);
      FailedStep(Continue(s, fewer), later[|later| - 1], name, k);
    }
  }

  lemma FailedIsUnheard(s: State, c: ClientId, name: Name, k: nat)
    requires Items(s) && c in s.clients && k < |HistoryOf(s, name)| && HistoryOf(s, name)[k].status == Failed
    ensures forall e :: e in s.clients[c].box.offered && e.Item? && e.via == FanOut ==> !(e.name == name && e.number == k)
  {
    assert ClientOk(s, c);
    forall e | e in s.clients[c].box.offered && e.Item? && e.via == FanOut ensures !(e.name == name && e.number == k) {
      assert EntryOk(s, e);
    }
  }

  /** A save that reported failure stays failed, is never counted, and never fans out to anyone. */
  lemma FailedSaveIsNotFannedOut(s: State, now: State, name: Name, k: nat)
    requires Reachable(s) && LeadsTo(s, now) && k < |HistoryOf(s, name)| && HistoryOf(s, name)[k].status == Failed
    ensures && k < |HistoryOf(now, name)| && HistoryOf(now, name)[k] == HistoryOf(s, name)[k]
            && (forall t :: !CountedBy(t)(HistoryOf(now, name)[k]))
            && (forall c, e :: c in now.clients && e in now.clients[c].box.offered && e.Item? && e.via == FanOut ==>
                  !(e.name == name && e.number == k))
  {
    var later :| Continue(s, later) == now;
    ReachableInv(s);
    StaysFailed(s, later, name, k);
    ContinueInv(s, later);
    forall c | c in now.clients
      ensures forall e :: e in now.clients[c].box.offered && e.Item? && e.via == FanOut ==> !(e.name == name && e.number == k)
    {
      FailedIsUnheard(now, c, name, k);
    }
  }

  // ---------------------------------------------------------------- the replay list

  predicate NoneFailed(history: seq<Push>) {
    forall j :: 0 <= j < |history| ==> history[j].status != Failed
  }

  /** The publishers of `name` between their push and their trim. */
  function Untrimmed(s: State, name: Name): set<ClientId> {
    set c | c in s.clients && s.clients[c].pc.PubPushed? && s.clients[c].pc.name == name
  }

  function UntrimmedBefore(s: State, name: Name, k: nat): set<ClientId> {
    set c | c in s.clients && s.clients[c].pc.PubPushed? && s.clients[c].pc.name == name && s.clients[c].pc.number < k
  }

  lemma {:induction false} UntrimmedCount(s: State, name: Name, k: nat)
    requires Publishers(s) && k <= |HistoryOf(s, name)|
    requires NoneFailed(HistoryOf(s, name))
    ensures CountIf(HistoryOf(s, name)[..k], Unsettled) == |UntrimmedBefore(s, name, k)|
  {
    var h := HistoryOf(s, name);
    if k == 0 {
      assert UntrimmedBefore(s, name, k) == {};
    } else {
      UntrimmedCount(s, name, k - 1);
      assert h[..k][..k - 1] == h[..k - 1];
      assert Attended(s, name, k - 1);
      NextUntrimmed(s, name, k - 1);
    }
  }

  lemma NextUntrimmed(s: State, name: Name, k: nat)
    requires Publishers(s) && k < |HistoryOf(s, name)|
    ensures var push := HistoryOf(s, name)[k];
            var before, now := UntrimmedBefore(s, name, k), UntrimmedBefore(s, name, k + 1);
            if push.status == Pushed then now == before + {push.publisher} && push.publisher !in before else now == before
  {
    assert Attended(s, name, k);
    forall c | c in s.clients && s.clients[c].pc.PubPushed? && s.clients[c].pc.name == name && s.clients[c].pc.number == k
      ensures HistoryOf(s, name)[k].status == Pushed && HistoryOf(s, name)[k].publisher == c
    {
      assert Recorded(s, c);
    }
    var push := HistoryOf(s, name)[k];
    if push.status == Pushed {
      assert Recorded(s, push.publisher);
    }
  }

  /**
   Without failed saves the stored list is at most 100 longer than the number of publishers between push and trim;
   with none of those, a fetch of any positive size returns exactly the last min(n, 100, pushes since expiry), oldest first.
   */
  lemma ListKeepsItsSize(s: State, name: Name, n: int)
    requires Reachable(s) && NoneFailed(HistoryOf(s, name)) && n > 0
    ensures |StoredList(s, name)| <= REPLAY_BUFFER_SIZE + |Untrimmed(s, name)|
    ensures BaseOf(s, name) <= |HistoryOf(s, name)|
            && (Untrimmed(s, name) == {} ==> Fetched(s, name, n) == LastPushes(s, name, Min(n, REPLAY_BUFFER_SIZE)))
  {
    ReachableInv(s);
    KeepsItsSize(s, name, n);
  }

  lemma KeepsItsSize(s: State, name: Name, n: int)
    requires Publishers(s) && ListOk(s, name) && n > 0
    requires NoneFailed(HistoryOf(s, name))
    ensures |StoredList(s, name)| <= REPLAY_BUFFER_SIZE + |Untrimmed(s, name)|
    ensures BaseOf(s, name) <= |HistoryOf(s, name)|
    ensures Untrimmed(s, name) == {} ==> Fetched(s, name, n) == LastPushes(s, name, Min(n, REPLAY_BUFFER_SIZE))
  {
    AllUntrimmed(s, name);
    ListReachesBack(s, name);
    if Untrimmed(s, name) == {} {
      SettledIsLast(s, name, n);
    }
  }

  lemma SettledIsLast(s: State, name: Name, n: int)
    requires ListOk(s, name) && n > 0 && |StoredList(s, name)| <= REPLAY_BUFFER_SIZE
    ensures Fetched(s, name, n) == LastPushes(s, name, Min(n, REPLAY_BUFFER_SIZE))
  {
    FetchIsLastOfHistory(StoredList(s, name), Numbered(HistoryOf(s, name)), BaseOf(s, name), n);
  }

  lemma AllUntrimmed(s: State, name: Name)
    requires Publishers(s) && NoneFailed(HistoryOf(s, name))
    ensures CountIf(HistoryOf(s, name), Unsettled) == |Untrimmed(s, name)|
  {
    var h := HistoryOf(s, name);
    UntrimmedCount(s, name, |h|);
    assert h[..|h|] == h;
    forall c | c in Untrimmed(s, name) ensures c in UntrimmedBefore(s, name, |h|) {
      assert Recorded(s, c);
    }
    assert Untrimmed(s, name) == UntrimmedBefore(s, name, |h|);
  }

  /** In every interleaving, late and failed trims included, a fetch of 1 <= n <= 100 is the end of the history. */
  lemma FetchIsEndOfHistory(s: State, name: Name, n: int)
    requires Reachable(s) && 1 <= n <= REPLAY_BUFFER_SIZE
    ensures BaseOf(s, name) <= |HistoryOf(s, name)| && Fetched(s, name, n) == LastPushes(s, name, n)
  {
    ReachableInv(s);
    assert ListOk(s, name);
    EndOfHistory(s, name, n);
  }

  lemma EndOfHistory(s: State, name: Name, n: int)
    requires ListOk(s, name) && 1 <= n <= REPLAY_BUFFER_SIZE
    ensures BaseOf(s, name) <= |HistoryOf(s, name)|
    ensures Fetched(s, name, n)
            == LastPushes(s, name, n)
  {
    FetchIsLastOfHistory(StoredList(s, name), Numbered(HistoryOf(s, name)), BaseOf(s, name), n);
  }
}
