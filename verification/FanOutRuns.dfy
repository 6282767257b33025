/** Who hears of a publish, whatever happens between its snapshot and its last send. */
module FanOutRuns {
  import opened Model
  import opened Mailbox
  import opened ReplayLog
  import opened Delivery
  import opened DeliveryProofs
  import opened Coverage

  /** The fan-out of the push numbered `number` was sent to this client. */
  ghost predicate FannedOut(offered: seq<Entry>, name: Name, number: nat) {
    exists e :: e in offered && e.Item? && e.via == FanOut && e.name == name && e.number == number
  }

  ghost predicate Heard(s: State, c: ClientId, name: Name, number: nat) {
    c in s.clients && FannedOut(s.clients[c].box.offered, name, number)
  }

  /** Of the snapshot `listed` of publisher `b`, those that have not been sent the message are those it waits for. */
  ghost predicate Spreads(s: State, b: ClientId, name: Name, number: nat, listed: set<ClientId>) {
    && number < |HistoryOf(s, name)| && HistoryOf(s, name)[number].publisher == b
    && (forall c :: c in listed ==> c in s.clients)
    && (forall c :: Heard(s, c, name, number) ==> c in listed)
    && if HistoryOf(s, name)[number].status == Sending then
         && PcOf(s, b).PubSending? && PcOf(s, b).name == name && PcOf(s, b).number == number
         && PcOf(s, b).waiting <= listed
         && forall c :: c in listed ==> c in PcOf(s, b).waiting || Heard(s, c, name, number)
       else HistoryOf(s, name)[number].status == Sent && forall c :: c in listed ==> Heard(s, c, name, number)
  }

  lemma HeardStays(s: State, a: Action, c: ClientId, name: Name, number: nat)
    requires Heard(s, c, name, number)
    ensures Heard(Step(s, a), c, name, number)
  {
    OfferedGrows(s, a, c);
    var e :| e in s.clients[c].box.offered && e.Item? && e.via == FanOut && e.name == name && e.number == number;
    assert e in Step(s, a).clients[c].box.offered;
  }

  /** A client hears of a push only from a send of the publisher that recorded it. */
  lemma NewlyHeard(s: State, a: Action, c: ClientId, name: Name, number: nat)
    requires Publishers(s) && !Heard(s, c, name, number) && Heard(Step(s, a), c, name, number)
    ensures a.SendOne? && a.to == c && number < |HistoryOf(s, name)| && a.c == HistoryOf(s, name)[number].publisher
    ensures AwaitedBy(PcOf(s, a.c), name, c, number)
  {
    if c in s.clients {
      OfferedGrows(s, a, c);
      var e :| e in Step(s, a).clients[c].box.offered && e.Item? && e.via == FanOut && e.name == name && e.number == number;
      assert OfferOf(s, a, c) == Some(e);
      FanOutOffer(s, a, c);
      assert Recorded(s, a.c);
    } else {
      NewClientOk(s, a, c);
    }
  }

  lemma FanOutOffer(s: State, a: Action, c: ClientId)
    requires c in s.clients && OfferOf(s, a, c).Some? && OfferOf(s, a, c).value.Item? && OfferOf(s, a, c).value.via == FanOut
    ensures a.SendOne? && a.to == c && a.c in s.clients
    ensures var e := OfferOf(s, a, c).value; AwaitedBy(s.clients[a.c].pc, e.name, c, e.number)
  {}

  lemma SpreadHeard(s: State, a: Action, b: ClientId, name: Name, number: nat, listed: set<ClientId>, c: ClientId)
    requires Publishers(s) && Spreads(s, b, name, number, listed) && Heard(Step(s, a), c, name, number)
    ensures c in listed
  {
    if !Heard(s, c, name, number) {
      NewlyHeard(s, a, c, name, number);
      assert Recorded(s, b);
    }
  }

  lemma SendingMoves(s: State, a: Action, b: ClientId)
    ensures SendingAdvances(s, a, b)
  {
    if Own(a) {
      OwnSending(s, a, b);
    } else if MovesPublish(a) {
      PublisherSending(s, a, b);
    } else {
      OtherSending(s, a, b);
    }
  }

  /** What a send takes out of the waiting set it has offered. */
  lemma WaitingHeard(s: State, a: Action, b: ClientId, name: Name, number: nat, c: ClientId)
    requires c in s.clients && AwaitedBy(PcOf(s, b), name, c, number)
    ensures AwaitedBy(PcOf(Step(s, a), b), name, c, number) || Heard(Step(s, a), c, name, number)
  {
    SendingMoves(s, a, b);
    OfferedGrows(s, a, c);
    if a.SendOne? && a.c == b && a.to == c && PcOf(Step(s, a), b) != PcOf(s, b) {
      assert OfferOf(s, a, c).value in Step(s, a).clients[c].box.offered;
    }
  }

  lemma SpreadReaches(s: State, a: Action, b: ClientId, name: Name, number: nat, listed: set<ClientId>, c: ClientId)
    requires Spreads(s, b, name, number, listed) && c in listed
    ensures AwaitedBy(PcOf(Step(s, a), b), name, c, number) || Heard(Step(s, a), c, name, number)
  {
    if Heard(s, c, name, number) {
      HeardStays(s, a, c, name, number);
    } else {
      WaitingHeard(s, a, b, name, number, c);
    }
  }

  lemma SpreadRecord(s: State, a: Action, b: ClientId, name: Name, number: nat, listed: set<ClientId>)
    requires Publishers(s) && Spreads(s, b, name, number, listed)
    ensures number < |HistoryOf(Step(s, a), name)|
    ensures var was, now := HistoryOf(s, name)[number], HistoryOf(Step(s, a), name)[number];
            && now.publisher == was.publisher
            && (now.status == was.status || (was.status == Sending && now.status == Sent))
  {
    HistoryStep(s, a, name);
    var change := ChangeOf(s, a);
    if change.Marks? && change.name == name && change.number == number {
      SentIsLast(s, a);
    }
  }

  /** A publish that is sending, or has ended, is marked only as ended. */
  lemma SentIsLast(s: State, a: Action)
    requires Publishers(s) && ChangeOf(s, a).Marks?
    ensures var change := ChangeOf(s, a);
            && change.number < |HistoryOf(s, change.name)|
            && var was := HistoryOf(s, change.name)[change.number].status;
            && was != Sent && (was == Sending ==> change.status == Sent)
  {
    MarkReplaces(s, a);
    MarkMoves(s, a);
  }

  /** The status a mark sets follows the one it replaces. */
  lemma MarkMoves(s: State, a: Action)
    requires ChangeOf(s, a).Marks?
    ensures ChangeOf(s, a).status == match a { case TrimList(_, reply) => if reply.Applied? then Trimmed else Failed
                                               case Count(_) => Counted case Snapshot(_) => Sending case _ => Sent }
  {}

  lemma SpreadsStep(s: State, a: Action, b: ClientId, name: Name, number: nat, listed: set<ClientId>)
    requires Publishers(s) && Spreads(s, b, name, number, listed)
    ensures Spreads(Step(s, a), b, name, number, listed)
  {
    var after := Step(s, a);
    SpreadRecord(s, a, b, name, number, listed);
    ClientsGrow(s, a);
    PublishersStep(s, a);
    forall c | Heard(after, c, name, number) ensures c in listed {
      SpreadHeard(s, a, b, name, number, listed, c);
    }
    forall c | c in listed ensures AwaitedBy(PcOf(after, b), name, c, number) || Heard(after, c, name, number) {
      SpreadReaches(s, a, b, name, number, listed, c);
    }
    StillSending(s, a, b, name, number, listed);
  }

  lemma StillSending(s: State, a: Action, b: ClientId, name: Name, number: nat, listed: set<ClientId>)
    requires Publishers(s) && Publishers(Step(s, a)) && Spreads(s, b, name, number, listed)
    requires number < |HistoryOf(Step(s, a), name)|
    requires HistoryOf(Step(s, a), name)[number].publisher == b
    ensures HistoryOf(Step(s, a), name)[number].status == Sending ==>
              var now := PcOf(Step(s, a), b);
              now.PubSending? && now.name == name && now.number == number && now.waiting <= listed
    ensures HistoryOf(Step(s, a), name)[number].status == Sent ==>
              forall c :: !AwaitedBy(PcOf(Step(s, a), b), name, c, number)
  {
    var after := Step(s, a);
    assert Attended(after, name, number);
    if b in after.clients {
      assert Recorded(after, b);
    }
    SpreadRecord(s, a, b, name, number, listed);
    SendingMoves(s, a, b);
  }

  /** The snapshot begins the spread, with nobody told. */
  lemma SnapshotSpreads(s: State, b: ClientId)
    requires Refs(s) && Publishers(s) && Items(s)
    requires b in s.clients && s.clients[b].pc.PubCounted? && s.clients[b].pc.tid < |s.objects|
    ensures var pc := s.clients[b].pc;
            Spreads(Step(s, Snapshot(b)), b, pc.name, pc.number, s.objects[pc.tid].subs)
  {
    var pc, after := s.clients[b].pc, Step(s, Snapshot(b));
    assert Recorded(s, b);
    SnapshotWaits(s, b);
    HistoryStep(s, Snapshot(b), pc.name);
    ClientsGrow(s, Snapshot(b));
    forall c ensures !Heard(after, c, pc.name, pc.number) {
      NobodyToldYet(s, b, c);
    }
  }

  lemma HeardWasSent(s: State, c: ClientId, name: Name, number: nat)
    requires Items(s) && Heard(s, c, name, number)
    ensures number < |HistoryOf(s, name)|
    ensures HistoryOf(s, name)[number].status == Sending || HistoryOf(s, name)[number].status == Sent
  {
    assert ClientOk(s, c);
    var e :| e in s.clients[c].box.offered && e.Item? && e.via == FanOut && e.name == name && e.number == number;
    assert EntryOk(s, e);
  }

  lemma NobodyToldYet(s: State, b: ClientId, c: ClientId)
    requires Publishers(s) && Items(s) && b in s.clients && s.clients[b].pc.PubCounted?
    ensures !Heard(Step(s, Snapshot(b)), c, s.clients[b].pc.name, s.clients[b].pc.number)
  {
    var pc := s.clients[b].pc;
    assert Recorded(s, b);
    if Heard(s, c, pc.name, pc.number) {
      HeardWasSent(s, c, pc.name, pc.number);
      assert false;
    } else if Heard(Step(s, Snapshot(b)), c, pc.name, pc.number) {
      NewlyHeard(s, Snapshot(b), c, pc.name, pc.number);
      assert false;
    }
  }

  lemma {:induction false} SpreadsOn(s: State, later: seq<Action>, b: ClientId, name: Name, number: nat, listed: set<ClientId>)
    requires Inv(s) && Spreads(s, b, name, number, listed)
    ensures Spreads(Continue(s, later), b, name, number, listed)
  {
    if later != [] {
      var fewer := later[..|later| - 1];
      SpreadsOn(s, fewer, b, name, number, listed);
      ContinueInv(s, fewer);
      SpreadsStep(Continue(s, fewer), later[|later| - 1], b, name, number, listed);
    }
  }

  predicate AboutToSend(s: State, b: ClientId) {
    b in s.clients && s.clients[b].pc.PubCounted? && s.clients[b].pc.tid < |s.objects|
  }

  /** `now` follows on the snapshot of publisher `b`. */
  ghost predicate SnapshotThen(s: State, b: ClientId, now: State) {
    exists later :: Continue(Step(s, Snapshot(b)), later) == now
  }

  /**
   A publish is heard of by exactly the clients its topic object listed at the snapshot: by no other client at any
   later time, however the sends interleave with everything else, and by each of them once the publish has ended.
   */
  lemma FanOutReachesTheSnapshot(s: State, b: ClientId, now: State, c: ClientId)
    requires Reachable(s) && AboutToSend(s, b) && SnapshotThen(s, b, now)
    ensures var pc := s.clients[b].pc;
            && pc.number < |HistoryOf(now, pc.name)|
            && (Heard(now, c, pc.name, pc.number) ==> c in s.objects[pc.tid].subs)
            && (HistoryOf(now, pc.name)[pc.number].status == Sent && c in s.objects[pc.tid].subs ==>
                  Heard(now, c, pc.name, pc.number))
  {
    var later :| Continue(Step(s, Snapshot(b)), later) == now;
    var pc := s.clients[b].pc;
    ReachableInv(s);
    SnapshotSpreads(s, b);
    StepInv(s, Snapshot(b));
    SpreadsOn(Step(s, Snapshot(b)), later, b, pc.name, pc.number, s.objects[pc.tid].subs);
  }
}
