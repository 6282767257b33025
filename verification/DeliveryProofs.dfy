/** What every interleaving of publishing and subscribing keeps. */
module DeliveryProofs {
  import opened Model
  import opened Mailbox
  import opened ReplayLog
  import opened Delivery

  predicate HasPointer(pc: Pc) {
    !pc.Idle? && !pc.Replaying?
  }

  predicate Publishing(pc: Pc) {
    pc.PubPushed? || pc.PubTrimmed? || pc.PubCounted? || pc.PubSending?
  }

  function StatusAt(pc: Pc): Status
    requires Publishing(pc)
  {
    match pc
    case PubPushed(_, _, _, _) => Pushed
    case PubTrimmed(_, _, _, _) => Trimmed
    case PubCounted(_, _, _, _) => Counted
    case _ => Sending
  }

  predicate InFlight(status: Status) {
    status == Pushed || status == Trimmed || status == Counted || status == Sending
  }

  ghost predicate Refs(s: State) {
    && (forall n :: n in s.live ==> s.live[n] < |s.objects| && s.objects[s.live[n]].name == n)
    && (forall c :: c in s.clients && HasPointer(s.clients[c].pc) ==>
          s.clients[c].pc.tid < |s.objects| && s.objects[s.clients[c].pc.tid].name == s.clients[c].pc.name)
    && (forall t, c {:trigger c in s.objects[t].subs} :: 0 <= t < |s.objects| && c in s.objects[t].subs ==> c in s.clients)
  }

  /** A publisher's own record says how far it has got. */
  ghost predicate Recorded(s: State, c: ClientId)
    requires c in s.clients
  {
    var pc := s.clients[c].pc;
    Publishing(pc) ==>
      && pc.number < |HistoryOf(s, pc.name)|
      && HistoryOf(s, pc.name)[pc.number] == Push(pc.tid, c, pc.message, StatusAt(pc))
  }

  /** A record in flight belongs to a handler that is publishing it. */
  ghost predicate Attended(s: State, n: Name, k: nat)
    requires k < |HistoryOf(s, n)|
  {
    var push := HistoryOf(s, n)[k];
    InFlight(push.status) ==>
      && push.publisher in s.clients
      && var pc := s.clients[push.publisher].pc;
      Publishing(pc) && pc.name == n && pc.number == k
  }

  ghost predicate Publishers(s: State) {
    && (forall c :: c in s.clients ==> Recorded(s, c))
    && (forall n, k {:trigger HistoryOf(s, n)[k]} :: 0 <= k < |HistoryOf(s, n)| ==> Attended(s, n, k))
  }

  predicate SameTask(was: Pc, now: Pc) {
    && Publishing(was) == Publishing(now)
    && (Publishing(was) ==>
          && StatusAt(was) == StatusAt(now) && was.name == now.name && was.tid == now.tid
          && was.message == now.message && was.number == now.number)
  }

  function PcOf(s: State, c: ClientId): Pc {
    if c in s.clients then s.clients[c].pc else Idle
  }

  /** Nobody's publish moves. */
  ghost predicate SameTasks(s: State, after: State) {
    && after.history == s.history && s.clients.Keys <= after.clients.Keys
    && forall c :: c in after.clients ==> SameTask(PcOf(s, c), after.clients[c].pc)
  }

  predicate SameStores(s: State, after: State) {
    && after.live == s.live && after.lists == s.lists && after.base == s.base
    && after.clients.Keys == s.clients.Keys
  }

  lemma SameTasksPublishers(s: State, after: State)
    requires Publishers(s) && SameTasks(s, after)
    ensures Publishers(after)
  {
    forall b | b in after.clients ensures Recorded(after, b) {
      assert b in s.clients ==> Recorded(s, b);
    }
    forall n, k: nat | k < |HistoryOf(after, n)| ensures Attended(after, n, k) {
      assert Attended(s, n, k);
    }
  }

  predicate Advances(was: Pc, now: Pc, status: Status) {
    && Publishing(was)
    && if InFlight(status)
       then Publishing(now) && StatusAt(now) == status && now.name == was.name && now.tid == was.tid
            && now.message == was.message && now.number == was.number
       else !Publishing(now)
  }

  function Moved(s: State, c: ClientId, client: Client, status: Status): State
    requires c in s.clients && Publishing(s.clients[c].pc)
  {
    Mark(SetClient(s, c, client), s.clients[c].pc.name, s.clients[c].pc.number, status)
  }

  lemma MarkRecorded(s: State, c: ClientId, client: Client, status: Status, b: ClientId)
    requires Publishers(s) && c in s.clients && Advances(s.clients[c].pc, client.pc, status) && b in s.clients
    ensures b in Moved(s, c, client, status).clients && Recorded(Moved(s, c, client, status), b)
  {
    assert Recorded(s, b) && Recorded(s, c);
  }

  lemma MarkAttended(s: State, c: ClientId, client: Client, status: Status, n: Name, k: nat)
    requires Publishers(s) && c in s.clients && Advances(s.clients[c].pc, client.pc, status)
    requires k < |HistoryOf(Moved(s, c, client, status), n)|
    ensures Attended(Moved(s, c, client, status), n, k)
  {
    assert Recorded(s, c);
    assert Attended(s, n, k);
  }

  /** One publish moves on: its record and its program counter together. */
  lemma MarkPublishers(s: State, c: ClientId, client: Client, status: Status)
    requires Publishers(s) && c in s.clients && Advances(s.clients[c].pc, client.pc, status)
    ensures Publishers(Moved(s, c, client, status))
  {
    var after := Moved(s, c, client, status);
    forall b | b in after.clients ensures Recorded(after, b) {
      MarkRecorded(s, c, client, status, b);
    }
    forall n, k: nat | k < |HistoryOf(after, n)| ensures Attended(after, n, k) {
      MarkAttended(s, c, client, status, n, k);
    }
  }

  /** A push adds a record at the end; in flight, if it is, for the handler that made it. */
  ghost predicate Appended(s: State, after: State, c: ClientId, push: Push) {
    && c in s.clients && s.clients[c].pc.PubGot? && after.clients.Keys == s.clients.Keys
    && (forall b :: b in s.clients && b != c ==> after.clients[b] == s.clients[b])
    && var pc := s.clients[c].pc;
    && after.history == s.history[pc.name := HistoryOf(s, pc.name) + [push]]
    && push == Push(pc.tid, c, pc.message, push.status)
    && var now := after.clients[c].pc;
    if push.status == Pushed then now == PubPushed(pc.name, pc.tid, pc.message, |HistoryOf(s, pc.name)|)
    else push.status == Failed && !Publishing(now)
  }

  lemma AppendedPublishers(s: State, after: State, c: ClientId, push: Push)
    requires Publishers(s) && Appended(s, after, c, push)
    ensures Publishers(after)
  {
    forall b | b in after.clients ensures Recorded(after, b) {
      assert Recorded(s, b);
    }
    forall n, k: nat | k < |HistoryOf(after, n)| ensures Attended(after, n, k) {
      if k < |HistoryOf(s, n)| {
        assert Attended(s, n, k);
      }
    }
  }

  lemma PushAppends(s: State, c: ClientId, reply: Reply)
    requires c in s.clients && s.clients[c].pc.PubGot? && !reply.Refused?
    ensures var pc := s.clients[c].pc;
            Appended(s, DoPush(s, c, reply), c, Push(pc.tid, c, pc.message, if reply.Applied? then Pushed else Failed))
  {}

  lemma PushPublishers(s: State, c: ClientId, reply: Reply)
    requires Publishers(s)
    ensures Publishers(DoPush(s, c, reply))
  {
    if c in s.clients && s.clients[c].pc.PubGot? && !reply.Refused? {
      var pc := s.clients[c].pc;
      PushAppends(s, c, reply);
      AppendedPublishers(s, DoPush(s, c, reply), c, Push(pc.tid, c, pc.message, if reply.Applied? then Pushed else Failed));
    } else {
      SameTasksPublishers(s, DoPush(s, c, reply));
    }
  }

  lemma TrimPublishers(s: State, c: ClientId, reply: Reply)
    requires Publishers(s)
    ensures Publishers(DoTrim(s, c, reply))
  {
    if c in s.clients && s.clients[c].pc.PubPushed? {
      var pc := s.clients[c].pc;
      var moved := if reply.Applied?
                   then s.clients[c].(pc := PubTrimmed(pc.name, pc.tid, pc.message, pc.number))
                   else Client(Offer(s.clients[c].box, Answer), Idle);
      MarkPublishers(s, c, moved, if reply.Applied? then Trimmed else Failed);
      SameTasksPublishers(Moved(s, c, moved, if reply.Applied? then Trimmed else Failed), DoTrim(s, c, reply));
    }
  }

  lemma CountPublishers(s: State, c: ClientId)
    requires Publishers(s)
    ensures Publishers(DoCount(s, c))
  {
    if c in s.clients && s.clients[c].pc.PubTrimmed? && s.clients[c].pc.tid < |s.objects| {
      var pc := s.clients[c].pc;
      var moved := s.clients[c].(pc := PubCounted(pc.name, pc.tid, pc.message, pc.number));
      MarkPublishers(s, c, moved, Counted);
      SameTasksPublishers(Moved(s, c, moved, Counted), DoCount(s, c));
    }
  }

  lemma SnapshotPublishers(s: State, c: ClientId)
    requires Publishers(s)
    ensures Publishers(DoSnapshot(s, c))
  {
    if c in s.clients && s.clients[c].pc.PubCounted? && s.clients[c].pc.tid < |s.objects| {
      var pc := s.clients[c].pc;
      var moved := s.clients[c].(pc := PubSending(pc.name, pc.tid, pc.message, pc.number, s.objects[pc.tid].subs));
      MarkPublishers(s, c, moved, Sending);
    }
  }

  lemma SendDonePublishers(s: State, c: ClientId)
    requires Publishers(s)
    ensures Publishers(DoSendDone(s, c))
  {
    if c in s.clients && s.clients[c].pc.PubSending? && s.clients[c].pc.waiting == {} {
      MarkPublishers(s, c, Client(Offer(s.clients[c].box, Answer), Idle), Sent);
    }
  }

  lemma PublishersStep(s: State, a: Action)
    requires Publishers(s)
    ensures Publishers(Step(s, a))
  {
    match a
    case PushMessage(c, reply) => PushPublishers(s, c, reply);
    case TrimList(c, reply) => TrimPublishers(s, c, reply);
    case Count(c) => CountPublishers(s, c);
    case Snapshot(c) => SnapshotPublishers(s, c);
    case SendDone(c) => SendDonePublishers(s, c);
    case _ =>
      OtherTasks(s, a);
      SameTasksPublishers(s, Step(s, a));
  }

  predicate MovesPublish(a: Action) {
    a.PushMessage? || a.TrimList? || a.Count? || a.Snapshot? || a.SendDone?
  }

  lemma OtherTasks(s: State, a: Action)
    requires !MovesPublish(a)
    ensures SameTasks(s, Step(s, a))
  {
    match a
    case Evict(c, tid) => EvictTasks(s, c, tid);
    case Add(c) => AddTasks(s, c);
    case FetchReplay(c, reply) => FetchTasks(s, c, reply);
    case SendOne(c, to) => SendOneTasks(s, c, to);
    case Create(_) => PlainTasks(s, a);
    case Unlink(_) => PlainTasks(s, a);
    case Remove(c, tid) => PlainTasks(s, a);
    case Expire(_) => PlainTasks(s, a);
    case _ => OwnTasks(s, a);
  }

  predicate Plain(a: Action) {
    a.Create? || a.Unlink? || a.Remove? || a.Expire?
  }

  predicate Own(a: Action) {
    a.Connect? || a.BoxMoves? || a.FindToSubscribe? || a.ReplayOne? || a.ReplayDone? || a.FindToPublish?
  }

  lemma PlainTasks(s: State, a: Action)
    requires Plain(a)
    ensures SameTasks(s, Step(s, a)) && Step(s, a).clients == s.clients
  {}

  /** An action of one client's handler or write loop that touches nothing else. */
  lemma OwnMove(s: State, a: Action) returns (client: Client)
    requires Own(a)
    ensures Step(s, a) == s || Step(s, a) == SetClient(s, a.c, client)
    ensures Step(s, a) != s ==> SameTask(PcOf(s, a.c), client.pc)
  {
    client := if a.c in Step(s, a).clients then Step(s, a).clients[a.c] else Client(NewBox(), Idle);
  }

  lemma OwnTasks(s: State, a: Action)
    requires Own(a)
    ensures SameTasks(s, Step(s, a))
  {
    var client := OwnMove(s, a);
  }

  lemma EvictTasks(s: State, c: ClientId, tid: TopicId)
    ensures SameTasks(s, DoEvict(s, c, tid))
  {}

  lemma EvictStores(s: State, c: ClientId, tid: TopicId)
    ensures SameStores(s, DoEvict(s, c, tid))
  {}

  lemma AddTasks(s: State, c: ClientId)
    ensures SameTasks(s, DoAdd(s, c))
  {}

  lemma AddStores(s: State, c: ClientId)
    ensures SameStores(s, DoAdd(s, c))
  {}

  lemma FetchTasks(s: State, c: ClientId, reply: Reply)
    ensures SameTasks(s, DoFetch(s, c, reply))
  {}

  lemma FetchStores(s: State, c: ClientId, reply: Reply)
    ensures SameStores(s, DoFetch(s, c, reply))
  {
    FetchKeys(s, c, reply);
  }

  lemma FetchKeys(s: State, c: ClientId, reply: Reply)
    ensures DoFetch(s, c, reply).clients.Keys == s.clients.Keys
  {}

  lemma SendOneTasks(s: State, c: ClientId, to: ClientId)
    ensures SameTasks(s, DoSendOne(s, c, to))
  {}

  lemma SendOneStores(s: State, c: ClientId, to: ClientId)
    ensures SameStores(s, DoSendOne(s, c, to))
  {}

  // ---------------------------------------------------------------- objects and records

  ghost predicate Records(s: State) {
    forall n, k {:trigger HistoryOf(s, n)[k]} :: 0 <= k < |HistoryOf(s, n)| ==>
      HistoryOf(s, n)[k].tid < |s.objects| && s.objects[HistoryOf(s, n)[k].tid].name == n
  }

  /** Objects are never renamed and never go away. */
  ghost predicate ObjectsGrow(s: State, after: State) {
    && |s.objects| <= |after.objects|
    && forall t :: 0 <= t < |s.objects| ==> after.objects[t].name == s.objects[t].name
  }

  lemma ObjectsStep(s: State, a: Action)
    ensures ObjectsGrow(s, Step(s, a))
  {}

  /** What an action does to the histories. */
  datatype Change = Unchanged | Appends(name: Name, push: Push) | Marks(name: Name, number: nat, status: Status)

  function ChangeOf(s: State, a: Action): Change {
    if !MovesPublish(a) || a.c !in s.clients then Unchanged
    else
      var pc := s.clients[a.c].pc;
      match a
      case PushMessage(c, reply) =>
        if pc.PubGot? && !reply.Refused?
        then Appends(pc.name, Push(pc.tid, c, pc.message, if reply.Applied? then Pushed else Failed)) else Unchanged
      case TrimList(_, reply) =>
        if pc.PubPushed? then Marks(pc.name, pc.number, if reply.Applied? then Trimmed else Failed) else Unchanged
      case Count(_) =>
        if pc.PubTrimmed? && pc.tid < |s.objects| then Marks(pc.name, pc.number, Counted) else Unchanged
      case Snapshot(_) =>
        if pc.PubCounted? && pc.tid < |s.objects| then Marks(pc.name, pc.number, Sending) else Unchanged
      case _ =>
        if pc.PubSending? && pc.waiting == {} then Marks(pc.name, pc.number, Sent) else Unchanged
  }

  function Changed(history: seq<Push>, n: Name, change: Change): seq<Push> {
    match change
    case Unchanged => history
    case Appends(name, push) => if name == n then history + [push] else history
    case Marks(name, number, status) => if name == n then SetStatus(history, number, status) else history
  }

  lemma HistoryStep(s: State, a: Action, n: Name)
    ensures HistoryOf(Step(s, a), n) == Changed(HistoryOf(s, n), n, ChangeOf(s, a))
  {
    if MovesPublish(a) {
      PublisherHistory(s, a, n);
    } else {
      OtherTasks(s, a);
    }
  }

  lemma PublisherHistory(s: State, a: Action, n: Name)
    requires MovesPublish(a)
    ensures HistoryOf(Step(s, a), n) == Changed(HistoryOf(s, n), n, ChangeOf(s, a))
  {
    match a
    case PushMessage(c, reply) => PushHistory(s, c, reply, n);
    case TrimList(c, reply) => TrimHistory(s, c, reply, n);
    case Count(c) => CountHistory(s, c, n);
    case Snapshot(c) => SnapshotHistory(s, c, n);
    case SendDone(c) => SendDoneHistory(s, c, n);
  }

  lemma PushHistory(s: State, c: ClientId, reply: Reply, n: Name)
    ensures HistoryOf(DoPush(s, c, reply), n) == Changed(HistoryOf(s, n), n, ChangeOf(s, PushMessage(c, reply)))
  {}

  lemma TrimHistory(s: State, c: ClientId, reply: Reply, n: Name)
    ensures HistoryOf(DoTrim(s, c, reply), n) == Changed(HistoryOf(s, n), n, ChangeOf(s, TrimList(c, reply)))
  {}

  lemma CountHistory(s: State, c: ClientId, n: Name)
    ensures HistoryOf(DoCount(s, c), n) == Changed(HistoryOf(s, n), n, ChangeOf(s, Count(c)))
  {}

  lemma SnapshotHistory(s: State, c: ClientId, n: Name)
    ensures HistoryOf(DoSnapshot(s, c), n) == Changed(HistoryOf(s, n), n, ChangeOf(s, Snapshot(c)))
  {}

  lemma SendDoneHistory(s: State, c: ClientId, n: Name)
    ensures HistoryOf(DoSendDone(s, c), n) == Changed(HistoryOf(s, n), n, ChangeOf(s, SendDone(c)))
  {}

  /** The status a mark replaces. */
  lemma MarkReplaces(s: State, a: Action)
    requires Publishers(s) && ChangeOf(s, a).Marks?
    ensures var change := ChangeOf(s, a);
            && change.number < |HistoryOf(s, change.name)|
            && var was := HistoryOf(s, change.name)[change.number];
            && was.publisher == a.c && was.tid == s.clients[a.c].pc.tid
            && was.status == match a { case TrimList(_, _) => Pushed case Count(_) => Trimmed
                                       case Snapshot(_) => Counted case _ => Sending }
  {
    assert Recorded(s, a.c);
  }

  lemma LiveStep(s: State, a: Action)
    requires Refs(s)
    ensures var after := Step(s, a);
            forall n :: n in after.live ==> after.live[n] < |after.objects| && after.objects[after.live[n]].name == n
  {
    var after := Step(s, a);
    ObjectsStep(s, a);
    forall n | n in after.live ensures after.live[n] < |after.objects| && after.objects[after.live[n]].name == n {
      LiveFrom(s, a, n);
    }
  }

  /** Only a creation puts a name into the tables, with a new object. */
  lemma LiveFrom(s: State, a: Action, n: Name)
    requires n in Step(s, a).live
    ensures var after := Step(s, a);
            || (n in s.live && after.live[n] == s.live[n])
            || (after.live[n] == |s.objects| < |after.objects| && after.objects[|s.objects|].name == n)
  {
    match a
    case Evict(c, tid) => EvictStores(s, c, tid);
    case Add(c) => AddStores(s, c);
    case FetchReplay(c, reply) => FetchStores(s, c, reply);
    case SendOne(c, to) => SendOneStores(s, c, to);
    case Remove(c, tid) => TakeOffStores(s, c, tid);
    case Create(_) =>
    case Unlink(_) =>
    case Expire(_) =>
    case _ =>
      if MovesPublish(a) {
        PublishMoves(s, a);
      } else {
        var client := OwnMove(s, a);
      }
  }

  lemma ClientsGrow(s: State, a: Action)
    ensures s.clients.Keys <= Step(s, a).clients.Keys
  {
    if MovesPublish(a) {
      PublishMoves(s, a);
    } else {
      OtherTasks(s, a);
    }
  }

  /** A publisher's step changes its own handler and nobody else's. */
  ghost predicate PublisherMoved(s: State, after: State, c: ClientId) {
    && after.clients.Keys == s.clients.Keys && after.live == s.live && after.sessions == s.sessions
    && (forall b :: b in s.clients && b != c ==> after.clients[b] == s.clients[b])
    && (c in s.clients && HasPointer(after.clients[c].pc) ==>
          && HasPointer(s.clients[c].pc) && after.clients[c].pc.tid == s.clients[c].pc.tid
          && after.clients[c].pc.name == s.clients[c].pc.name)
  }

  lemma PushMoves(s: State, c: ClientId, reply: Reply)
    ensures PublisherMoved(s, DoPush(s, c, reply), c)
  {}

  lemma TrimMoves(s: State, c: ClientId, reply: Reply)
    ensures PublisherMoved(s, DoTrim(s, c, reply), c)
  {}

  lemma CountMoves(s: State, c: ClientId)
    ensures PublisherMoved(s, DoCount(s, c), c)
  {}

  lemma SnapshotMoves(s: State, c: ClientId)
    ensures PublisherMoved(s, DoSnapshot(s, c), c)
  {}

  lemma SendDoneMoves(s: State, c: ClientId)
    ensures PublisherMoved(s, DoSendDone(s, c), c)
  {}

  lemma PublishMoves(s: State, a: Action)
    requires MovesPublish(a)
    ensures PublisherMoved(s, Step(s, a), a.c)
  {
    match a
    case PushMessage(c, reply) => PushMoves(s, c, reply);
    case TrimList(c, reply) => TrimMoves(s, c, reply);
    case Count(c) => CountMoves(s, c);
    case Snapshot(c) => SnapshotMoves(s, c);
    case SendDone(c) => SendDoneMoves(s, c);
  }

  ghost predicate PointerFrom(s: State, now: Pc, c: ClientId) {
    HasPointer(now) ==>
      || (c in s.clients && HasPointer(s.clients[c].pc) && now.tid == s.clients[c].pc.tid && now.name == s.clients[c].pc.name)
      || (now.name in s.live && now.tid == s.live[now.name])
  }

  lemma OwnPointer(s: State, a: Action)
    requires Own(a)
    ensures a.c in Step(s, a).clients ==> PointerFrom(s, Step(s, a).clients[a.c].pc, a.c)
  {}

  lemma EvictPointer(s: State, c: ClientId, tid: TopicId, b: ClientId)
    ensures b in DoEvict(s, c, tid).clients ==> PointerFrom(s, DoEvict(s, c, tid).clients[b].pc, b)
  {}

  lemma AddPointer(s: State, c: ClientId, b: ClientId)
    ensures b in DoAdd(s, c).clients ==> PointerFrom(s, DoAdd(s, c).clients[b].pc, b)
  {}

  lemma FetchPointer(s: State, c: ClientId, reply: Reply, b: ClientId)
    ensures b in DoFetch(s, c, reply).clients ==> PointerFrom(s, DoFetch(s, c, reply).clients[b].pc, b)
  {}

  lemma SendOnePointer(s: State, c: ClientId, to: ClientId, b: ClientId)
    ensures b in DoSendOne(s, c, to).clients ==> PointerFrom(s, DoSendOne(s, c, to).clients[b].pc, b)
  {}

  lemma PointerStep(s: State, a: Action, c: ClientId)
    requires c in Step(s, a).clients
    ensures PointerFrom(s, Step(s, a).clients[c].pc, c)
  {
    if MovesPublish(a) {
      PublishMoves(s, a);
    } else if Own(a) {
      var client := OwnMove(s, a);
      OwnPointer(s, a);
    } else if Plain(a) {
      PlainTasks(s, a);
    } else {
      match a
      case Evict(b, tid) => EvictPointer(s, b, tid, c);
      case Add(b) => AddPointer(s, b, c);
      case FetchReplay(b, reply) => FetchPointer(s, b, reply, c);
      case SendOne(b, to) => SendOnePointer(s, b, to, c);
    }
  }

  lemma ListingStep(s: State, a: Action, t: nat, c: ClientId)
    requires t < |Step(s, a).objects| && c in Step(s, a).objects[t].subs
    ensures (t < |s.objects| && c in s.objects[t].subs) || c in s.clients
  {
    if MovesPublish(a) {
      SameListings(s, a);
    } else if Own(a) {
      var client := OwnMove(s, a);
    } else {
      OtherListing(s, a, t, c);
    }
  }

  lemma SameListings(s: State, a: Action)
    requires MovesPublish(a)
    ensures |Step(s, a).objects| == |s.objects|
    ensures forall t :: 0 <= t < |s.objects| ==> Step(s, a).objects[t].subs == s.objects[t].subs
  {
    if a.Count? {
      CountListings(s, a.c);
    } else {
      SameObjects(s, a);
    }
  }

  lemma CountListings(s: State, c: ClientId)
    ensures |DoCount(s, c).objects| == |s.objects|
    ensures forall t :: 0 <= t < |s.objects| ==> DoCount(s, c).objects[t].subs == s.objects[t].subs
  {}

  lemma SameObjects(s: State, a: Action)
    requires MovesPublish(a) && !a.Count?
    ensures Step(s, a).objects == s.objects
  {}

  lemma OtherListing(s: State, a: Action, t: nat, c: ClientId)
    requires !MovesPublish(a) && !Own(a) && t < |Step(s, a).objects| && c in Step(s, a).objects[t].subs
    ensures (t < |s.objects| && c in s.objects[t].subs) || c in s.clients
  {}

  lemma RefsStep(s: State, a: Action)
    requires Refs(s)
    ensures Refs(Step(s, a))
  {
    var after := Step(s, a);
    ObjectsStep(s, a);
    LiveStep(s, a);
    ClientsGrow(s, a);
    forall c | c in after.clients && HasPointer(after.clients[c].pc)
      ensures after.clients[c].pc.tid < |after.objects| && after.objects[after.clients[c].pc.tid].name == after.clients[c].pc.name
    {
      PointerStep(s, a, c);
    }
    forall t, c | 0 <= t < |after.objects| && c in after.objects[t].subs ensures c in after.clients {
      ListingStep(s, a, t, c);
    }
  }

  lemma RecordsStep(s: State, a: Action)
    requires Refs(s) && Records(s)
    ensures Records(Step(s, a))
  {
    var after := Step(s, a);
    forall n, k: nat | k < |HistoryOf(after, n)|
      ensures HistoryOf(after, n)[k].tid < |after.objects| && after.objects[HistoryOf(after, n)[k].tid].name == n
    {
      RecordStep(s, a, n, k);
      ObjectsStep(s, a);
    }
  }

  /** A record is about an object of its topic's name, which the step found there. */
  lemma RecordStep(s: State, a: Action, n: Name, k: nat)
    requires Refs(s) && Records(s) && k < |HistoryOf(Step(s, a), n)|
    ensures var tid := HistoryOf(Step(s, a), n)[k].tid; tid < |s.objects| && s.objects[tid].name == n
  {
    HistoryStep(s, a, n);
    ChangeKeeps(s, a, n, k);
  }

  lemma ChangeKeeps(s: State, a: Action, n: Name, k: nat)
    requires Refs(s) && Records(s) && k < |Changed(HistoryOf(s, n), n, ChangeOf(s, a))|
    ensures var tid := Changed(HistoryOf(s, n), n, ChangeOf(s, a))[k].tid; tid < |s.objects| && s.objects[tid].name == n
  {
    if k < |HistoryOf(s, n)| {
      assert Changed(HistoryOf(s, n), n, ChangeOf(s, a))[k].tid == HistoryOf(s, n)[k].tid;
    }
  }

  // ---------------------------------------------------------------- the stored lists

  function Numbered(history: seq<Push>): (stored: seq<Stored>)
    ensures |stored| == |history|
    ensures forall k :: 0 <= k < |history| ==> stored[k] == Stored(k, history[k].message)
  {
    seq(|history|, k requires 0 <= k < |history| => Stored(k, history[k].message))
  }

  function CountIf(history: seq<Push>, f: Push -> bool): nat {
    if history == [] then 0
    else CountIf(history[..|history| - 1], f) + if f(history[|history| - 1]) then 1 else 0
  }

  lemma CountAppend(history: seq<Push>, push: Push, f: Push -> bool)
    ensures CountIf(history + [push], f) == CountIf(history, f) + if f(push) then 1 else 0
  {
    assert (history + [push])[..|history|] == history;
  }

  lemma {:induction false} CountUpdate(history: seq<Push>, k: nat, push: Push, f: Push -> bool)
    requires k < |history|
    ensures CountIf(history[k := push], f) + (if f(history[k]) then 1 else 0)
            == CountIf(history, f) + (if f(push) then 1 else 0)
  {
    var last := |history| - 1;
    if k == last {
      assert history[k := push][..last] == history[..last];
    } else {
      CountUpdate(history[..last], k, push, f);
      assert history[k := push][..last] == history[..last][k := push];
    }
  }

  /** A push whose publisher has not trimmed after it, and a push whose trim failed. */
  predicate Unsettled(push: Push) {
    push.status == Pushed || push.status == Failed
  }

  ghost predicate ListOk(s: State, n: Name) {
    && Mirrors(StoredList(s, n), Numbered(HistoryOf(s, n)), BaseOf(s, n))
    && |StoredList(s, n)| <= REPLAY_BUFFER_SIZE + CountIf(HistoryOf(s, n), Unsettled)
  }

  ghost predicate ListsOk(s: State) {
    forall n :: ListOk(s, n)
  }

  lemma SameList(s: State, after: State, n: Name)
    requires ListOk(s, n)
    requires StoredList(after, n) == StoredList(s, n) && BaseOf(after, n) == BaseOf(s, n)
    requires HistoryOf(after, n) == HistoryOf(s, n)
    ensures ListOk(after, n)
  {}

  /** A status change that does not unsettle a push leaves the list as it is. */
  lemma MarkedList(s: State, after: State, n: Name, k: nat, status: Status)
    requires ListOk(s, n) && k < |HistoryOf(s, n)|
    requires HistoryOf(after, n) == SetStatus(HistoryOf(s, n), k, status)
    requires StoredList(after, n) == StoredList(s, n) && BaseOf(after, n) == BaseOf(s, n)
    requires Unsettled(HistoryOf(s, n)[k]) ==> status == Failed
    ensures ListOk(after, n)
  {
    CountUpdate(HistoryOf(s, n), k, HistoryOf(s, n)[k].(status := status), Unsettled);
    assert Numbered(HistoryOf(after, n)) == Numbered(HistoryOf(s, n));
  }

  lemma TrimmedList(s: State, after: State, n: Name, k: nat, status: Status)
    requires ListOk(s, n) && HistoryOf(after, n) == SetStatus(HistoryOf(s, n), k, status)
    requires StoredList(after, n) == LTrim(StoredList(s, n), 0, REPLAY_BUFFER_SIZE - 1) && BaseOf(after, n) == BaseOf(s, n)
    ensures ListOk(after, n)
  {
    TrimMirrors(StoredList(s, n), Numbered(HistoryOf(s, n)), BaseOf(s, n));
    assert Numbered(HistoryOf(after, n)) == Numbered(HistoryOf(s, n));
  }

  lemma PushedList(s: State, after: State, n: Name, push: Push)
    requires ListOk(s, n) && Unsettled(push) && HistoryOf(after, n) == HistoryOf(s, n) + [push]
    requires StoredList(after, n) == LPush(StoredList(s, n), Stored(|HistoryOf(s, n)|, push.message))
    requires BaseOf(after, n) == BaseOf(s, n)
    ensures ListOk(after, n)
  {
    var item := Stored(|HistoryOf(s, n)|, push.message);
    PushMirrors(StoredList(s, n), Numbered(HistoryOf(s, n)), BaseOf(s, n), item);
    assert Numbered(HistoryOf(after, n)) == Numbered(HistoryOf(s, n)) + [item];
    CountAppend(HistoryOf(s, n), push, Unsettled);
  }

  lemma ListsStep(s: State, a: Action)
    requires ListsOk(s) && Publishers(s)
    ensures ListsOk(Step(s, a))
  {
    var after := Step(s, a);
    forall n ensures ListOk(after, n) {
      ListStep(s, a, n);
    }
  }

  /** What an action does to one stored list. */
  lemma StoredStep(s: State, a: Action, n: Name)
    ensures var after, change := Step(s, a), ChangeOf(s, a);
            && (change.Appends? && change.name == n ==>
                  StoredList(after, n) == LPush(StoredList(s, n), Stored(|HistoryOf(s, n)|, change.push.message)))
            && (change.Marks? && change.name == n && a.TrimList? && a.reply.TookEffect() ==>
                  StoredList(after, n) == LTrim(StoredList(s, n), 0, REPLAY_BUFFER_SIZE - 1))
            && (!(change.Appends? && change.name == n) && !(change.Marks? && a.TrimList?) && !a.Expire? ==>
                  StoredList(after, n) == StoredList(s, n))
            && (change.Marks? && a.TrimList? && (change.name != n || a.reply.Refused?) ==>
                  StoredList(after, n) == StoredList(s, n))
            && (!a.Expire? ==> BaseOf(after, n) == BaseOf(s, n))
  {
    if MovesPublish(a) {
      PublisherStored(s, a, n);
    } else if !a.Expire? {
      ListsUntouched(s, a);
    }
  }

  lemma ListsUntouched(s: State, a: Action)
    requires !MovesPublish(a) && !a.Expire?
    ensures Step(s, a).lists == s.lists && Step(s, a).base == s.base
  {
    if Own(a) {
      var client := OwnMove(s, a);
    } else {
      OtherListsUntouched(s, a);
    }
  }

  lemma OtherListsUntouched(s: State, a: Action)
    requires !Own(a) && !MovesPublish(a) && !a.Expire?
    ensures Step(s, a).lists == s.lists && Step(s, a).base == s.base
  {
    match a
    case Evict(c, tid) => EvictStores(s, c, tid);
    case Add(c) => AddStores(s, c);
    case FetchReplay(c, reply) => FetchStores(s, c, reply);
    case SendOne(c, to) => SendOneStores(s, c, to);
    case Create(_) =>
    case Unlink(_) =>
    case Remove(c, tid) => TakeOffStores(s, c, tid);
  }

  lemma TakeOffStores(s: State, c: ClientId, tid: TopicId)
    ensures SameStores(s, DoTakeOff(s, c, tid))
  {}

  lemma PublisherStored(s: State, a: Action, n: Name)
    requires MovesPublish(a)
    ensures var after, change := Step(s, a), ChangeOf(s, a);
            && BaseOf(after, n) == BaseOf(s, n)
            && StoredList(after, n)
               == if change.Appends? && change.name == n then
                    LPush(StoredList(s, n), Stored(|HistoryOf(s, n)|, change.push.message))
                  else if change.Marks? && change.name == n && a.TrimList? && a.reply.TookEffect() then
                    LTrim(StoredList(s, n), 0, REPLAY_BUFFER_SIZE - 1)
                  else StoredList(s, n)
  {
    match a
    case PushMessage(c, reply) => PushStored(s, c, reply, n);
    case TrimList(c, reply) => TrimStored(s, c, reply, n);
    case _ => LaterStored(s, a);
  }

  lemma PushStored(s: State, c: ClientId, reply: Reply, n: Name)
    ensures var after, change := DoPush(s, c, reply), ChangeOf(s, PushMessage(c, reply));
            && after.base == s.base
            && StoredList(after, n)
               == if change.Appends? && change.name == n then
                    LPush(StoredList(s, n), Stored(|HistoryOf(s, n)|, change.push.message))
                  else StoredList(s, n)
  {}

  lemma TrimStored(s: State, c: ClientId, reply: Reply, n: Name)
    ensures var after, change := DoTrim(s, c, reply), ChangeOf(s, TrimList(c, reply));
            && after.base == s.base
            && StoredList(after, n)
               == if change.Marks? && change.name == n && reply.TookEffect() then
                    LTrim(StoredList(s, n), 0, REPLAY_BUFFER_SIZE - 1)
                  else StoredList(s, n)
  {}

  lemma LaterStored(s: State, a: Action)
    requires a.Count? || a.Snapshot? || a.SendDone?
    ensures Step(s, a).lists == s.lists && Step(s, a).base == s.base
  {}

  lemma ListStep(s: State, a: Action, n: Name)
    requires ListOk(s, n) && Publishers(s)
    ensures ListOk(Step(s, a), n)
  {
    var after, change := Step(s, a), ChangeOf(s, a);
    HistoryStep(s, a, n);
    if a.Expire? {
      ExpiredList(s, a.name, n);
    } else {
      StoredStep(s, a, n);
      if change.Appends? && change.name == n {
        AppendStatus(s, a);
        PushedList(s, after, n, change.push);
      } else if change.Marks? && change.name == n {
        MarkListStep(s, a);
      } else {
        SameList(s, after, n);
      }
    }
  }

  lemma MarkListStep(s: State, a: Action)
    requires Publishers(s) && ChangeOf(s, a).Marks? && ListOk(s, ChangeOf(s, a).name)
    ensures ListOk(Step(s, a), ChangeOf(s, a).name)
  {
    var change, after := ChangeOf(s, a), Step(s, a);
    HistoryStep(s, a, change.name);
    StoredStep(s, a, change.name);
    MarkReplaces(s, a);
    MarkSettles(s, a);
    if a.TrimList? && a.reply.TookEffect() {
      TrimmedList(s, after, change.name, change.number, change.status);
    } else {
      MarkedList(s, after, change.name, change.number, change.status);
    }
  }

  /** A mark on a push still untrimmed is the trim's, and a trim refused leaves the push unsettled. */
  lemma MarkSettles(s: State, a: Action)
    requires ChangeOf(s, a).Marks?
    ensures a.TrimList? && !a.reply.TookEffect() ==> ChangeOf(s, a).status == Failed
  {}

  lemma ExpiredList(s: State, name: Name, n: Name)
    requires ListOk(s, n)
    ensures ListOk(Step(s, Expire(name)), n)
  {}

  // ---------------------------------------------------------------- message counts

  /** The pushes through object `t` whose publish has counted them. */
  function CountedBy(t: nat): Push -> bool {
    (push: Push) => push.tid == t && (push.status == Counted || push.status == Sending || push.status == Sent)
  }

  ghost predicate Counts(s: State) {
    forall t :: 0 <= t < |s.objects| ==> s.objects[t].count == CountIf(HistoryOf(s, s.objects[t].name), CountedBy(t))
  }

  lemma {:induction false} CountNone(history: seq<Push>, f: Push -> bool)
    requires forall k :: 0 <= k < |history| ==> !f(history[k])
    ensures CountIf(history, f) == 0
  {
    if history != [] {
      CountNone(history[..|history| - 1], f);
    }
  }

  lemma {:induction false} CountBound(history: seq<Push>, f: Push -> bool)
    ensures CountIf(history, f) <= |history|
  {
    if history != [] {
      CountBound(history[..|history| - 1], f);
    }
  }

  /** Only the counting step of a publish through an object raises its count. */
  lemma ObjectCount(s: State, a: Action, t: nat)
    requires t < |s.objects|
    ensures t < |Step(s, a).objects|
    ensures Step(s, a).objects[t].count
            == s.objects[t].count + (if a.Count? && ChangeOf(s, a).Marks? && s.clients[a.c].pc.tid == t then 1 else 0)
  {
    if !a.Count? {
      SameCounts(s, a, t);
    }
  }

  lemma SameCounts(s: State, a: Action, t: nat)
    requires !a.Count? && t < |s.objects|
    ensures t < |Step(s, a).objects| && Step(s, a).objects[t].count == s.objects[t].count
  {
    if MovesPublish(a) {
      PublisherSameCounts(s, a, t);
    } else if Own(a) {
      var client := OwnMove(s, a);
    } else {
      OtherSameCounts(s, a, t);
    }
  }

  lemma PublisherSameCounts(s: State, a: Action, t: nat)
    requires MovesPublish(a) && !a.Count? && t < |s.objects|
    ensures t < |Step(s, a).objects| && Step(s, a).objects[t].count == s.objects[t].count
  {}

  lemma OtherSameCounts(s: State, a: Action, t: nat)
    requires !MovesPublish(a) && !Own(a) && t < |s.objects|
    ensures t < |Step(s, a).objects| && Step(s, a).objects[t].count == s.objects[t].count
  {}

  /** Of all status changes only the counting step's makes a push count. */
  lemma MarkCounts(s: State, a: Action)
    requires Publishers(s) && Refs(s) && ChangeOf(s, a).Marks?
    ensures var change, pc := ChangeOf(s, a), s.clients[a.c].pc;
            && pc.tid < |s.objects| && s.objects[pc.tid].name == change.name && change.number < |HistoryOf(s, change.name)|
            && var was := HistoryOf(s, change.name)[change.number];
            && was.tid == pc.tid
            && (if a.Count? then was.status == Trimmed && change.status == Counted
                else forall t :: CountedBy(t)(was) == CountedBy(t)(was.(status := change.status)))
  {
    MarkReplaces(s, a);
  }

  lemma Recount(history: seq<Push>, number: nat, status: Status, t: nat)
    requires number < |history|
    requires status == Counted || CountedBy(t)(history[number]) == CountedBy(t)(history[number].(status := status))
    requires status == Counted ==> history[number].status == Trimmed
    ensures CountIf(SetStatus(history, number, status), CountedBy(t))
            == CountIf(history, CountedBy(t)) + (if status == Counted && history[number].tid == t then 1 else 0)
  {
    CountUpdate(history, number, history[number].(status := status), CountedBy(t));
  }

  lemma CountStep(s: State, a: Action, t: nat)
    requires Counts(s) && Publishers(s) && Refs(s) && Records(s) && t < |s.objects|
    ensures t < |Step(s, a).objects|
    ensures Step(s, a).objects[t].count == CountIf(HistoryOf(Step(s, a), s.objects[t].name), CountedBy(t))
  {
    ObjectCount(s, a, t);
    HistoryStep(s, a, s.objects[t].name);
    HistoryRecount(s, a, t);
  }

  lemma HistoryRecount(s: State, a: Action, t: nat)
    requires Publishers(s) && Refs(s) && t < |s.objects|
    ensures var n, change := s.objects[t].name, ChangeOf(s, a);
            CountIf(Changed(HistoryOf(s, n), n, change), CountedBy(t))
            == CountIf(HistoryOf(s, n), CountedBy(t))
               + (if a.Count? && change.Marks? && s.clients[a.c].pc.tid == t then 1 else 0)
  {
    var change := ChangeOf(s, a);
    if change.Appends? {
      AppendRecount(s, a, t);
    } else if change.Marks? {
      MarkRecount(s, a, t);
    }
  }

  lemma AppendRecount(s: State, a: Action, t: nat)
    requires t < |s.objects| && ChangeOf(s, a).Appends?
    ensures var n := s.objects[t].name;
            CountIf(Changed(HistoryOf(s, n), n, ChangeOf(s, a)), CountedBy(t)) == CountIf(HistoryOf(s, n), CountedBy(t))
  {
    AppendStatus(s, a);
    NewIsUncounted(HistoryOf(s, s.objects[t].name), ChangeOf(s, a).push, t);
  }

  lemma AppendStatus(s: State, a: Action)
    requires ChangeOf(s, a).Appends?
    ensures Unsettled(ChangeOf(s, a).push)
  {}

  lemma NewIsUncounted(history: seq<Push>, push: Push, t: nat)
    requires Unsettled(push)
    ensures CountIf(history + [push], CountedBy(t)) == CountIf(history, CountedBy(t))
  {
    CountAppend(history, push, CountedBy(t));
  }

  lemma MarkRecount(s: State, a: Action, t: nat)
    requires Publishers(s) && Refs(s) && t < |s.objects| && ChangeOf(s, a).Marks?
    ensures var n := s.objects[t].name;
            CountIf(Changed(HistoryOf(s, n), n, ChangeOf(s, a)), CountedBy(t))
            == CountIf(HistoryOf(s, n), CountedBy(t)) + (if a.Count? && s.clients[a.c].pc.tid == t then 1 else 0)
  {
    MarkCounts(s, a);
    var change := ChangeOf(s, a);
    if change.name == s.objects[t].name {
      MarkStatus(s, a);
      Recount(HistoryOf(s, change.name), change.number, change.status, t);
    }
  }

  lemma MarkStatus(s: State, a: Action)
    requires ChangeOf(s, a).Marks?
    ensures ChangeOf(s, a).status == Counted <==> a.Count?
  {}

  lemma CountsStep(s: State, a: Action)
    requires Counts(s) && Publishers(s) && Refs(s) && Records(s)
    ensures Counts(Step(s, a))
  {
    var after := Step(s, a);
    ObjectsStep(s, a);
    forall t | 0 <= t < |after.objects|
      ensures after.objects[t].count == CountIf(HistoryOf(after, after.objects[t].name), CountedBy(t))
    {
      if t < |s.objects| {
        CountStep(s, a, t);
      } else {
        NewObject(s, a, t);
      }
    }
  }

  lemma NewObject(s: State, a: Action, t: nat)
    requires Records(s) && |s.objects| <= t < |Step(s, a).objects|
    ensures var after := Step(s, a);
            after.objects[t].count == CountIf(HistoryOf(after, after.objects[t].name), CountedBy(t))
  {
    OnlyCreateAdds(s, a, t);
    CountNone(HistoryOf(s, a.name), CountedBy(t));
  }

  lemma OnlyCreateAdds(s: State, a: Action, t: nat)
    requires |s.objects| <= t < |Step(s, a).objects|
    ensures a.Create? && t == |s.objects| && Step(s, a).objects[t] == Object(a.name, {}, 0)
    ensures Step(s, a).history == s.history
  {
    if MovesPublish(a) {
      SameListings(s, a);
    } else if Own(a) {
      var client := OwnMove(s, a);
    }
  }

  // ---------------------------------------------------------------- what was offered

  ghost predicate EntryOk(s: State, e: Entry) {
    e.Item? ==>
      && e.number < |HistoryOf(s, e.name)|
      && var push := HistoryOf(s, e.name)[e.number];
      && push.message == e.message
      && (e.via == FanOut ==> push.status == Sending || push.status == Sent)
  }

  ghost predicate RestOk(s: State, pc: Pc) {
    pc.Replaying? ==>
      forall j :: 0 <= j < |pc.rest| ==> EntryOk(s, Item(pc.name, pc.rest[j].number, pc.rest[j].message, Replay))
  }

  ghost predicate ClientOk(s: State, c: ClientId)
    requires c in s.clients
  {
    && BoxOk(s.clients[c].box)
    && (forall i :: 0 <= i < |s.clients[c].box.offered| ==> EntryOk(s, s.clients[c].box.offered[i]))
    && RestOk(s, s.clients[c].pc)
  }

  ghost predicate Items(s: State) {
    forall c :: c in s.clients ==> ClientOk(s, c)
  }

  /** What an action offers to a client. */
  function OfferOf(s: State, a: Action, c: ClientId): Option<Entry>
    requires c in s.clients
  {
    var pc := s.clients[c].pc;
    match a
    case Evict(b, tid) =>
      if b == c && tid < |s.objects| && c in s.objects[tid].subs then Some(Notice(s.objects[tid].name)) else None
    case FindToSubscribe(b, name, _) => if b == c && pc == Idle && name !in s.live then Some(Answer) else None
    case FindToPublish(b, name, _) => if b == c && pc == Idle && name !in s.live then Some(Answer) else None
    case Add(b) =>
      if b == c && pc.SubGot? && pc.tid < |s.objects| && c !in s.objects[pc.tid].subs
         && |s.objects[pc.tid].subs| >= MAX_SUBSCRIBERS_PER_TOPIC then Some(Answer) else None
    case ReplayOne(b) =>
      if b == c && pc.Replaying? && pc.rest != [] then Some(Item(pc.name, pc.rest[0].number, pc.rest[0].message, Replay))
      else None
    case ReplayDone(b) => if b == c && pc.Replaying? && pc.rest == [] then Some(Answer) else None
    case PushMessage(b, reply) => if b == c && pc.PubGot? && !reply.Applied? then Some(Answer) else None
    case TrimList(b, reply) => if b == c && pc.PubPushed? && !reply.Applied? then Some(Answer) else None
    case SendOne(b, to) =>
      if to == c && b in s.clients && s.clients[b].pc.PubSending? && to in s.clients[b].pc.waiting then
        Some(Item(s.clients[b].pc.name, s.clients[b].pc.number, s.clients[b].pc.message, FanOut))
      else None
    case SendDone(b) => if b == c && pc.PubSending? && pc.waiting == {} then Some(Answer) else None
    case _ => None
  }

  ghost predicate BoxChanged(s: State, a: Action, after: State, c: ClientId)
    requires c in s.clients
  {
    && c in after.clients
    && var was, now := s.clients[c].box, after.clients[c].box;
    match OfferOf(s, a, c)
    case Some(e) => now == Offer(was, e)
    case None => now == if a.BoxMoves? && a.c == c && !a.e.Offered? then BoxStep(was, a.e) else was
  }

  lemma OwnBox(s: State, a: Action, c: ClientId)
    requires Own(a) && c in s.clients
    ensures BoxChanged(s, a, Step(s, a), c)
  {}

  lemma PublisherBox(s: State, a: Action, c: ClientId)
    requires MovesPublish(a) && c in s.clients
    ensures BoxChanged(s, a, Step(s, a), c)
  {
    PublishMoves(s, a);
    if c == a.c {
      PublisherOwnBox(s, a);
    }
  }

  lemma PublisherOwnBox(s: State, a: Action)
    requires MovesPublish(a) && a.c in s.clients
    ensures BoxChanged(s, a, Step(s, a), a.c)
  {}

  lemma OtherBox(s: State, a: Action, c: ClientId)
    requires !Own(a) && !MovesPublish(a) && c in s.clients
    ensures BoxChanged(s, a, Step(s, a), c)
  {
    match a
    case Evict(b, tid) => EvictBox(s, b, tid, c);
    case Add(b) => AddBox(s, b, c);
    case FetchReplay(b, reply) => FetchBox(s, b, reply, c);
    case SendOne(b, to) => SendOneBox(s, b, to, c);
    case _ => PlainTasks(s, a);
  }

  lemma EvictBox(s: State, b: ClientId, tid: TopicId, c: ClientId)
    requires c in s.clients
    ensures BoxChanged(s, Evict(b, tid), DoEvict(s, b, tid), c)
  {}

  lemma AddBox(s: State, b: ClientId, c: ClientId)
    requires c in s.clients
    ensures BoxChanged(s, Add(b), DoAdd(s, b), c)
  {}

  lemma FetchBox(s: State, b: ClientId, reply: Reply, c: ClientId)
    requires c in s.clients
    ensures BoxChanged(s, FetchReplay(b, reply), DoFetch(s, b, reply), c)
  {}

  lemma SendOneBox(s: State, b: ClientId, to: ClientId, c: ClientId)
    requires c in s.clients
    ensures BoxChanged(s, SendOne(b, to), DoSendOne(s, b, to), c)
  {}

  lemma BoxChange(s: State, a: Action, c: ClientId)
    requires c in s.clients
    ensures BoxChanged(s, a, Step(s, a), c)
  {
    if Own(a) {
      OwnBox(s, a, c);
    } else if MovesPublish(a) {
      PublisherBox(s, a, c);
    } else {
      OtherBox(s, a, c);
    }
  }

  /** What holds of an entry keeps holding of it. */
  lemma EntryStays(s: State, a: Action, e: Entry)
    requires Publishers(s) && EntryOk(s, e)
    ensures EntryOk(Step(s, a), e)
  {
    if e.Item? {
      HistoryStep(s, a, e.name);
      if ChangeOf(s, a).Marks? {
        MarkReplaces(s, a);
      }
    }
  }

  /** The replay that is left is a part of what was fetched, or of what was left before. */
  predicate RestFrom(s: State, was: Pc, now: Pc) {
    now.Replaying? ==>
      || (was.Replaying? && now == was)
      || (was.Replaying? && was.rest != [] && now == Replaying(was.name, was.rest[1..]))
      || (was.SubAdded? && now.name == was.name
          && (now.rest == [] || (was.lastN > 0
                                 && now.rest == Fetched(s, was.name, was.lastN))))
  }

  lemma OwnRest(s: State, a: Action, c: ClientId)
    requires Own(a)
    ensures RestFrom(s, PcOf(s, c), PcOf(Step(s, a), c))
  {}

  lemma PublisherRest(s: State, a: Action, c: ClientId)
    requires MovesPublish(a)
    ensures RestFrom(s, PcOf(s, c), PcOf(Step(s, a), c))
  {
    PublishMoves(s, a);
    if c == a.c {
      PublisherOwnRest(s, a);
    }
  }

  lemma PublisherOwnRest(s: State, a: Action)
    requires MovesPublish(a)
    ensures PcOf(Step(s, a), a.c).Replaying? ==> PcOf(Step(s, a), a.c) == PcOf(s, a.c)
  {}

  lemma OtherRest(s: State, a: Action, c: ClientId)
    requires !Own(a) && !MovesPublish(a)
    ensures RestFrom(s, PcOf(s, c), PcOf(Step(s, a), c))
  {
    match a
    case Evict(b, tid) => EvictRest(s, b, tid, c);
    case Add(b) => AddRest(s, b, c);
    case FetchReplay(b, reply) => FetchRest(s, b, reply, c);
    case SendOne(b, to) => SendOneRest(s, b, to, c);
    case _ => PlainTasks(s, a);
  }

  lemma EvictRest(s: State, b: ClientId, tid: TopicId, c: ClientId)
    ensures RestFrom(s, PcOf(s, c), PcOf(DoEvict(s, b, tid), c))
  {}

  lemma AddRest(s: State, b: ClientId, c: ClientId)
    ensures RestFrom(s, PcOf(s, c), PcOf(DoAdd(s, b), c))
  {}

  lemma FetchRest(s: State, b: ClientId, reply: Reply, c: ClientId)
    ensures RestFrom(s, PcOf(s, c), PcOf(DoFetch(s, b, reply), c))
  {}

  lemma SendOneRest(s: State, b: ClientId, to: ClientId, c: ClientId)
    ensures RestFrom(s, PcOf(s, c), PcOf(DoSendOne(s, b, to), c))
  {}

  lemma RestStep(s: State, a: Action, c: ClientId)
    ensures RestFrom(s, PcOf(s, c), PcOf(Step(s, a), c))
  {
    if Own(a) {
      OwnRest(s, a, c);
    } else if MovesPublish(a) {
      PublisherRest(s, a, c);
    } else {
      OtherRest(s, a, c);
    }
  }

  /** Whatever LRANGE returns from a list, the list's records vouch for. */
  lemma FetchedOk(s: State, n: Name, lastN: int)
    requires ListOk(s, n) && lastN > 0
    ensures var fetched := Fetched(s, n, lastN);
            var upto := |HistoryOf(s, n)|;
            && |fetched| == Min(lastN, |StoredList(s, n)|) && |fetched| <= upto
            && forall j :: 0 <= j < |fetched| ==>
                 && fetched[j].number == upto - |fetched| + j
                 && fetched[j].message == HistoryOf(s, n)[upto - |fetched| + j].message
  {
    FetchIsLastOfHistory(StoredList(s, n), Numbered(HistoryOf(s, n)), BaseOf(s, n), lastN);
    assert |LRange(StoredList(s, n), 0, lastN - 1)| == Min(lastN, |StoredList(s, n)|);
  }

  /** What is offered is vouched for by the history. */
  lemma OfferedOk(s: State, a: Action, c: ClientId)
    requires Items(s) && Publishers(s) && c in s.clients && OfferOf(s, a, c).Some?
    ensures EntryOk(s, OfferOf(s, a, c).value)
  {
    assert ClientOk(s, c);
    if a.ReplayOne? {
      assert RestOk(s, s.clients[c].pc);
    } else if a.SendOne? {
      assert Recorded(s, a.c);
    }
  }

  lemma BoxStays<T>(box: Box<T>, e: BoxEvent<T>)
    requires BoxOk(box)
    ensures BoxOk(BoxStep(box, e)) && (!e.Offered? ==> BoxStep(box, e).offered == box.offered)
  {
    StepOk(box, e);
  }

  lemma OfferStays<T>(box: Box<T>, item: T)
    requires BoxOk(box)
    ensures BoxOk(Offer(box, item)) && Offer(box, item).offered == box.offered + [item]
  {
    OfferOk(box, item);
  }

  lemma RestStays(s: State, a: Action, c: ClientId)
    requires Items(s) && Publishers(s) && ListsOk(s) && c in s.clients && c in Step(s, a).clients
    ensures RestOk(Step(s, a), Step(s, a).clients[c].pc)
  {
    var now := Step(s, a).clients[c].pc;
    if now.Replaying? {
      RestStep(s, a, c);
      assert ClientOk(s, c);
      var was := s.clients[c].pc;
      if was.SubAdded? && now.rest != [] {
        FetchedOk(s, was.name, was.lastN);
      }
      forall j | 0 <= j < |now.rest|
        ensures EntryOk(Step(s, a), Item(now.name, now.rest[j].number, now.rest[j].message, Replay))
      {
        EntryStays(s, a, Item(now.name, now.rest[j].number, now.rest[j].message, Replay));
      }
    }
  }

  lemma ClientStep(s: State, a: Action, c: ClientId)
    requires Items(s) && Publishers(s) && ListsOk(s) && c in s.clients
    ensures c in Step(s, a).clients && ClientOk(Step(s, a), c)
  {
    BoxChange(s, a, c);
    RestStays(s, a, c);
    BoxKept(s, a, c);
    var now := Step(s, a).clients[c].box;
    forall i | 0 <= i < |now.offered| ensures EntryOk(Step(s, a), now.offered[i]) {
      EntryStays(s, a, now.offered[i]);
    }
  }

  /** The box stays sound, and what it was offered is vouched for by the history before the step. */
  lemma BoxKept(s: State, a: Action, c: ClientId)
    requires Items(s) && Publishers(s) && c in s.clients && BoxChanged(s, a, Step(s, a), c)
    ensures var was, now := s.clients[c].box, Step(s, a).clients[c].box;
            && BoxOk(now)
            && now.offered == was.offered + (if OfferOf(s, a, c).Some? then [OfferOf(s, a, c).value] else [])
            && forall i :: 0 <= i < |now.offered| ==> EntryOk(s, now.offered[i])
  {
    var was := s.clients[c].box;
    assert ClientOk(s, c);
    if OfferOf(s, a, c).Some? {
      OfferedOk(s, a, c);
      OfferStays(was, OfferOf(s, a, c).value);
    } else if a.BoxMoves? && a.c == c {
      BoxStays(was, a.e);
    }
  }

  lemma ItemsStep(s: State, a: Action)
    requires Items(s) && Publishers(s) && ListsOk(s)
    ensures Items(Step(s, a))
  {
    var after := Step(s, a);
    forall c | c in after.clients ensures ClientOk(after, c) {
      if c in s.clients {
        ClientStep(s, a, c);
      } else {
        NewClientOk(s, a, c);
      }
    }
  }

  /** Only a connection adds a client. */
  lemma SameKeys(s: State, a: Action)
    requires !Own(a) && !MovesPublish(a)
    ensures Step(s, a).clients.Keys == s.clients.Keys
  {
    match a
    case Evict(c, tid) => EvictStores(s, c, tid);
    case Add(c) => AddStores(s, c);
    case FetchReplay(c, reply) => FetchStores(s, c, reply);
    case SendOne(c, to) => SendOneStores(s, c, to);
    case _ => PlainTasks(s, a);
  }

  lemma NewClientOk(s: State, a: Action, c: ClientId)
    requires c !in s.clients && c in Step(s, a).clients
    ensures Step(s, a).clients[c] == Client(NewBox(), Idle) && ClientOk(Step(s, a), c)
  {
    if MovesPublish(a) {
      PublishMoves(s, a);
    } else if Own(a) {
      var client := OwnMove(s, a);
    } else {
      SameKeys(s, a);
    }
  }
}
