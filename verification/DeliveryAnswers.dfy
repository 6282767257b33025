/** Requests and their answers when everything interleaves, and what a request does that does not get through. */
module DeliveryAnswers {
  import opened Model
  import opened Mailbox
  import opened ReplayLog
  import opened Delivery
  import opened DeliveryProofs
  import opened Coverage

  /** The step with which `c`'s handler takes up its next request. */
  predicate Starts(s: State, a: Action, c: ClientId) {
    (a.FindToSubscribe? || a.FindToPublish?) && a.c == c && c in s.clients && s.clients[c].pc == Idle
  }

  /** How many requests `c`'s handler has taken up in a run. */
  function RequestsOf(actions: seq<Action>, c: ClientId): nat {
    if actions == [] then 0
    else
      var before := actions[..|actions| - 1];
      RequestsOf(before, c) + if Starts(Run(before), actions[|actions| - 1], c) then 1 else 0
  }

  function AnswersIn(offered: seq<Entry>): nat {
    if offered == [] then 0
    else AnswersIn(offered[..|offered| - 1]) + if offered[|offered| - 1] == Answer then 1 else 0
  }

  function Busy(pc: Pc): nat {
    if pc == Idle then 0 else 1
  }

  /** A step answers exactly if it takes the handler back to idle. */
  ghost predicate Balances(s: State, a: Action, c: ClientId)
    requires c in s.clients
  {
    (if OfferOf(s, a, c) == Some(Answer) then 1 else 0) + Busy(PcOf(Step(s, a), c))
    == Busy(s.clients[c].pc) + if Starts(s, a, c) then 1 else 0
  }

  lemma OwnBalances(s: State, a: Action, c: ClientId)
    requires Own(a) && c in s.clients
    ensures Balances(s, a, c)
  {}

  lemma PublisherBalances(s: State, a: Action, c: ClientId)
    requires MovesPublish(a) && c in s.clients
    ensures Balances(s, a, c)
  {
    PublishMoves(s, a);
    if a.c == c {
      match a
      case PushMessage(_, reply) => PushBalances(s, c, reply);
      case TrimList(_, reply) => TrimBalances(s, c, reply);
      case _ => LaterBalances(s, a);
    }
  }

  lemma PushBalances(s: State, c: ClientId, reply: Reply)
    requires c in s.clients
    ensures Balances(s, PushMessage(c, reply), c)
  {}

  lemma TrimBalances(s: State, c: ClientId, reply: Reply)
    requires c in s.clients
    ensures Balances(s, TrimList(c, reply), c)
  {}

  lemma LaterBalances(s: State, a: Action)
    requires (a.Count? || a.Snapshot? || a.SendDone?) && a.c in s.clients
    ensures Balances(s, a, a.c)
  {}

  lemma EvictBalances(s: State, b: ClientId, tid: TopicId, c: ClientId)
    requires c in s.clients
    ensures Balances(s, Evict(b, tid), c)
  {}

  lemma AddBalances(s: State, b: ClientId, c: ClientId)
    requires c in s.clients
    ensures Balances(s, Add(b), c)
  {}

  lemma FetchBalances(s: State, b: ClientId, reply: Reply, c: ClientId)
    requires c in s.clients
    ensures Balances(s, FetchReplay(b, reply), c)
  {}

  lemma SendOneBalances(s: State, b: ClientId, to: ClientId, c: ClientId)
    requires c in s.clients
    ensures Balances(s, SendOne(b, to), c)
  {}

  lemma StepBalances(s: State, a: Action, c: ClientId)
    requires c in s.clients
    ensures Balances(s, a, c)
  {
    if Own(a) {
      OwnBalances(s, a, c);
    } else if MovesPublish(a) {
      PublisherBalances(s, a, c);
    } else if Plain(a) {
      PlainTasks(s, a);
    } else {
      match a
      case Evict(b, tid) => EvictBalances(s, b, tid, c);
      case Add(b) => AddBalances(s, b, c);
      case FetchReplay(b, reply) => FetchBalances(s, b, reply, c);
      case SendOne(b, to) => SendOneBalances(s, b, to, c);
    }
  }

  lemma AnswersMore(offered: seq<Entry>, e: Entry)
    ensures AnswersIn(offered + [e]) == AnswersIn(offered) + if e == Answer then 1 else 0
  {
    assert (offered + [e])[..|offered|] == offered;
  }

  lemma AnswersGrow(s: State, a: Action, c: ClientId)
    requires c in s.clients
    ensures c in Step(s, a).clients
    ensures AnswersIn(Step(s, a).clients[c].box.offered)
            == AnswersIn(s.clients[c].box.offered) + if OfferOf(s, a, c) == Some(Answer) then 1 else 0
  {
    OfferedGrows(s, a, c);
    AnswersGrown(s.clients[c].box.offered, Step(s, a).clients[c].box.offered, OfferOf(s, a, c));
  }

  lemma AnswersGrown(was: seq<Entry>, now: seq<Entry>, offer: Option<Entry>)
    requires now == was + if offer.Some? then [offer.value] else []
    ensures AnswersIn(now) == AnswersIn(was) + if offer == Some(Answer) then 1 else 0
  {
    if offer.Some? {
      AnswersMore(was, offer.value);
    } else {
      assert was + [] == was;
    }
  }

  ghost predicate Accounted(s: State, c: ClientId, requests: nat) {
    if c in s.clients then AnswersIn(s.clients[c].box.offered) + Busy(s.clients[c].pc) == requests else requests == 0
  }

  lemma AccountedStep(s: State, a: Action, c: ClientId, requests: nat)
    requires Inv(s) && Accounted(s, c, requests)
    ensures Accounted(Step(s, a), c, requests + if Starts(s, a, c) then 1 else 0)
  {
    if c in s.clients {
      AnswersGrow(s, a, c);
      StepBalances(s, a, c);
    } else if c in Step(s, a).clients {
      NewClientOk(s, a, c);
    }
  }

  /**
   Every request is answered exactly once, however everything interleaves: at any time a client has been offered as many
   answers as its handler has taken up requests, less the one it may be at.
   */
  lemma {:induction false} OneAnswerPerRequest(actions: seq<Action>, c: ClientId)
    ensures Accounted(Run(actions), c, RequestsOf(actions, c))
  {
    if actions != [] {
      var before := actions[..|actions| - 1];
      OneAnswerPerRequest(before, c);
      RunInv(before);
      AccountedStep(Run(before), actions[|actions| - 1], c, RequestsOf(before, c));
    }
  }

  // ---------------------------------------------------------------- requests that do not get through

  /** Nothing but one client's box and place, as given. */
  predicate OnlyClient(s: State, after: State, c: ClientId, offered: seq<Entry>, pc: Pc) {
    && after == s.(clients := after.clients) && after.clients.Keys == s.clients.Keys
    && (forall b :: b in s.clients && b != c ==> after.clients[b] == s.clients[b])
    && c in s.clients && after.clients[c].box.offered == s.clients[c].box.offered + offered && after.clients[c].pc == pc
  }

  lemma Offering(box: Box<Entry>, e: Entry)
    ensures Offer(box, e).offered == box.offered + [e]
  {}

  /** A request for a topic there is not, and a subscribe to a full one, change nothing and are answered. */
  lemma NotFoundIsAnswered(s: State, a: Action, c: ClientId)
    requires Starts(s, a, c) && a.name !in s.live
    ensures OnlyClient(s, Step(s, a), c, [Answer], Idle)
  {
    Offering(s.clients[c].box, Answer);
  }

  lemma FullIsAnswered(s: State, c: ClientId)
    requires c in s.clients && s.clients[c].pc.SubGot? && s.clients[c].pc.tid < |s.objects|
    requires var subs := s.objects[s.clients[c].pc.tid].subs; c !in subs && |subs| >= 50000
    ensures OnlyClient(s, Step(s, Add(c)), c, [Answer], Idle)
  {
    Offering(s.clients[c].box, Answer);
  }

  /** A subscribe that asks for no replay, or whose fetch fails, has nothing to replay and opens no claim to any. */
  lemma NothingToReplay(s: State, c: ClientId, reply: Reply)
    requires c in s.clients && s.clients[c].pc.SubAdded? && (s.clients[c].pc.lastN <= 0 || !reply.Applied?)
    ensures OnlyClient(s, Step(s, FetchReplay(c, reply)), c, [], Replaying(s.clients[c].pc.name, []))
  {}

  /** A client taken off by a deletion is told, once; one that is not listed is not. */
  lemma EvictionTells(s: State, c: ClientId, tid: TopicId)
    requires c in s.clients && tid < |s.objects|
    ensures var after, listed := Step(s, Evict(c, tid)), c in s.objects[tid].subs;
            && c in after.clients && |after.objects| == |s.objects|
            && after.clients[c].pc == s.clients[c].pc
            && after.clients[c].box.offered == s.clients[c].box.offered + (if listed then [Notice(s.objects[tid].name)] else [])
            && after.objects[tid].subs == s.objects[tid].subs - {c}
  {
    Offering(s.clients[c].box, Notice(s.objects[tid].name));
  }

  /** A creation puts a new object into the tables, unless the name is in use; an unlinked name is gone, its object is not. */
  lemma TablesChange(s: State, n: Name)
    ensures n in s.live ==> Step(s, Create(n)) == s
    ensures n !in s.live ==> Step(s, Create(n)) == s.(objects := s.objects + [Object(n, {}, 0)], live := s.live[n := |s.objects|])
    ensures Step(s, Unlink(n)) == s.(live := s.live - {n})
  {}
}
