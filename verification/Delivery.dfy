/**
 Publishing and subscribing with every interleaving of their parts: finding the topic, pushing, trimming, counting,
 the snapshot and each send of a publisher, and adding, fetching and each replayed send of a subscriber. Deletion,
 re-creation under the same name, removal of a client from a topic and expiry of a list may come at any moment.
 */
module Delivery {
  import opened Model
  import opened Mailbox
  import opened ReplayLog

  type TopicId = nat

  datatype Object = Object(name: Name, subs: set<ClientId>, count: nat)

  /** How far the publish that pushed a message has got. */
  datatype Status = Pushed | Failed | Trimmed | Counted | Sending | Sent

  /** One push: through which topic object, by which client's handler. */
  datatype Push = Push(tid: TopicId, publisher: ClientId, message: Message, status: Status)

  /** A list element, with the place of its push in the topic's history. */
  datatype Stored = Stored(number: nat, message: Message)

  datatype Via = Replay | FanOut

  datatype Entry = Item(name: Name, number: nat, message: Message, via: Via) | Notice(name: Name) | Answer

  datatype Pc =
    | Idle
    | SubGot(name: Name, tid: TopicId, lastN: int)
    | SubAdded(name: Name, tid: TopicId, lastN: int)
    | Replaying(name: Name, rest: seq<Stored>)
    | PubGot(name: Name, tid: TopicId, message: Message)
    | PubPushed(name: Name, tid: TopicId, message: Message, number: nat)
    | PubTrimmed(name: Name, tid: TopicId, message: Message, number: nat)
    | PubCounted(name: Name, tid: TopicId, message: Message, number: nat)
    | PubSending(name: Name, tid: TopicId, message: Message, number: nat, waiting: set<ClientId>)

  datatype Client = Client(box: Box<Entry>, pc: Pc)

  /** A subscription in force at its fetch, which replays the pushes from `from` up to, not including, `upto`. */
  datatype Session = Session(c: ClientId, name: Name, tid: TopicId, from: nat, upto: nat)

  datatype State = State(
    objects: seq<Object>,
    live: map<Name, TopicId>,
    clients: map<ClientId, Client>,
    history: map<Name, seq<Push>>,   // every push for a name, in order
    lists: map<Name, seq<Stored>>,
    base: map<Name, nat>,            // how many pushes had been made when the list last expired
    sessions: set<Session>)

  const START := State([], map[], map[], map[], map[], map[], {})

  datatype Action =
    | Connect(c: ClientId)
    | Create(name: Name)
    | Unlink(name: Name)                                   // the name leaves the tables, the object stays
    | Evict(c: ClientId, tid: TopicId)                     // told of the deletion and taken off the object
    | Remove(c: ClientId, tid: TopicId)                    // unsubscribed or cleaned up
    | Expire(name: Name)
    | BoxMoves(c: ClientId, e: BoxEvent<Entry>)            // write loop, lost connection, close
    | FindToSubscribe(c: ClientId, name: Name, lastN: int)
    | Add(c: ClientId)
    | FetchReplay(c: ClientId, reply: Reply)
    | ReplayOne(c: ClientId)
    | ReplayDone(c: ClientId)
    | FindToPublish(c: ClientId, name: Name, message: Message)
    | PushMessage(c: ClientId, reply: Reply)
    | TrimList(c: ClientId, reply: Reply)
    | Count(c: ClientId)
    | Snapshot(c: ClientId)
    | SendOne(c: ClientId, to: ClientId)
    | SendDone(c: ClientId)

  function HistoryOf(s: State, name: Name): seq<Push> {
    if name in s.history then s.history[name] else []
  }

  function StoredList(s: State, name: Name): seq<Stored> {
    if name in s.lists then s.lists[name] else []
  }

  function BaseOf(s: State, name: Name): nat {
    if name in s.base then s.base[name] else 0
  }

  /** What a successful replay call of up to `n` returns, oldest first. */
  function Fetched(s: State, name: Name, n: int): seq<Stored> {
    Reversed(LRange(StoredList(s, name), 0, n - 1))
  }

  function SetClient(s: State, c: ClientId, client: Client): State {
    s.(clients := s.clients[c := client])
  }

  function Goto(s: State, c: ClientId, pc: Pc): State
    requires c in s.clients
  {
    SetClient(s, c, s.clients[c].(pc := pc))
  }

  /** Back to reading requests, with one answer offered to the requester. */
  function Finish(s: State, c: ClientId): State
    requires c in s.clients
  {
    SetClient(s, c, Client(Offer(s.clients[c].box, Answer), Idle))
  }

  function SetStatus(history: seq<Push>, number: nat, status: Status): seq<Push> {
    if number < |history| then history[number := history[number].(status := status)] else history
  }

  /** The publish that `c` is making reaches `status`. */
  function Mark(s: State, name: Name, number: nat, status: Status): State {
    s.(history := s.history[name := SetStatus(HistoryOf(s, name), number, status)])
  }

  function DoTakeOff(s: State, c: ClientId, tid: TopicId): State {
    if tid < |s.objects| then
      s.(objects := s.objects[tid := s.objects[tid].(subs := s.objects[tid].subs - {c})],
         sessions := set e | e in s.sessions && !(e.c == c && e.tid == tid))
    else s
  }

  function DoEvict(s: State, c: ClientId, tid: TopicId): State {
    if tid < |s.objects| && c in s.clients && c in s.objects[tid].subs then
      DoTakeOff(SetClient(s, c, s.clients[c].(box := Offer(s.clients[c].box, Notice(s.objects[tid].name)))), c, tid)
    else s
  }

  function DoAdd(s: State, c: ClientId): State {
    if c in s.clients && s.clients[c].pc.SubGot? && s.clients[c].pc.tid < |s.objects| then
      var pc := s.clients[c].pc;
      var t := s.objects[pc.tid];
      if c !in t.subs && |t.subs| >= MAX_SUBSCRIBERS_PER_TOPIC then Finish(s, c)
      else
        Goto(s, c, SubAdded(pc.name, pc.tid, pc.lastN))
          .(objects := s.objects[pc.tid := t.(subs := t.subs + {c})])
    else s
  }

  function DoFetch(s: State, c: ClientId, reply: Reply): State {
    if c in s.clients && s.clients[c].pc.SubAdded? then
      var pc := s.clients[c].pc;
      if pc.lastN <= 0 || !reply.Applied? then Goto(s, c, Replaying(pc.name, []))
      else
        var fetched := Fetched(s, pc.name, pc.lastN);
        var upto := |HistoryOf(s, pc.name)|;
        var kept := if pc.tid < |s.objects| && c in s.objects[pc.tid].subs && |fetched| <= upto
                    then {Session(c, pc.name, pc.tid, upto - |fetched|, upto)} else {};
        Goto(s, c, Replaying(pc.name, fetched)).(sessions := s.sessions + kept)
    else s
  }

  function DoReplayOne(s: State, c: ClientId): State {
    if c in s.clients && s.clients[c].pc.Replaying? && s.clients[c].pc.rest != [] then
      var pc := s.clients[c].pc;
      var entry := Item(pc.name, pc.rest[0].number, pc.rest[0].message, Replay);
      SetClient(s, c, Client(Offer(s.clients[c].box, entry), Replaying(pc.name, pc.rest[1..])))
    else s
  }

  function DoPush(s: State, c: ClientId, reply: Reply): State {
    if c in s.clients && s.clients[c].pc.PubGot? then
      var pc := s.clients[c].pc;
      var number := |HistoryOf(s, pc.name)|;
      if reply.Refused? then Finish(s, c)
      else
        var push := Push(pc.tid, c, pc.message, if reply.Applied? then Pushed else Failed);
        var pushed := if reply.Applied? then Goto(s, c, PubPushed(pc.name, pc.tid, pc.message, number)) else Finish(s, c);
        pushed.(history := s.history[pc.name := HistoryOf(s, pc.name) + [push]],
                lists := s.lists[pc.name := LPush(StoredList(s, pc.name), Stored(number, pc.message))])
    else s
  }

  function DoTrim(s: State, c: ClientId, reply: Reply): State {
    if c in s.clients && s.clients[c].pc.PubPushed? then
      var pc := s.clients[c].pc;
      var lists := if reply.TookEffect()
                   then s.lists[pc.name := LTrim(StoredList(s, pc.name), 0, REPLAY_BUFFER_SIZE - 1)] else s.lists;
      if reply.Applied? then
        Mark(Goto(s, c, PubTrimmed(pc.name, pc.tid, pc.message, pc.number)), pc.name, pc.number, Trimmed).(lists := lists)
      else Mark(Finish(s, c), pc.name, pc.number, Failed).(lists := lists)
    else s
  }

  function DoCount(s: State, c: ClientId): State {
    if c in s.clients && s.clients[c].pc.PubTrimmed? && s.clients[c].pc.tid < |s.objects| then
      var pc := s.clients[c].pc;
      var t := s.objects[pc.tid];
      Mark(Goto(s, c, PubCounted(pc.name, pc.tid, pc.message, pc.number)), pc.name, pc.number, Counted)
        .(objects := s.objects[pc.tid := t.(count := t.count + 1)])
    else s
  }

  function DoSnapshot(s: State, c: ClientId): State {
    if c in s.clients && s.clients[c].pc.PubCounted? && s.clients[c].pc.tid < |s.objects| then
      var pc := s.clients[c].pc;
      Mark(Goto(s, c, PubSending(pc.name, pc.tid, pc.message, pc.number, s.objects[pc.tid].subs)), pc.name, pc.number, Sending)
    else s
  }

  function DoSendOne(s: State, c: ClientId, to: ClientId): State {
    if c in s.clients && s.clients[c].pc.PubSending? && to in s.clients[c].pc.waiting && to in s.clients then
      var pc := s.clients[c].pc;
      var moved := Goto(s, c, pc.(waiting := pc.waiting - {to}));
      var entry := Item(pc.name, pc.number, pc.message, FanOut);
      SetClient(moved, to, moved.clients[to].(box := Offer(moved.clients[to].box, entry)))
    else s
  }

  function DoSendDone(s: State, c: ClientId): State {
    if c in s.clients && s.clients[c].pc.PubSending? && s.clients[c].pc.waiting == {} then
      var pc := s.clients[c].pc;
      Mark(Finish(s, c), pc.name, pc.number, Sent)
    else s
  }

  function Step(s: State, a: Action): State {
    match a
    case Connect(c) => if c in s.clients then s else SetClient(s, c, Client(NewBox(), Idle))
    case Create(name) =>
      if name in s.live then s
      else s.(objects := s.objects + [Object(name, {}, 0)], live := s.live[name := |s.objects|])
    case Unlink(name) => s.(live := s.live - {name})
    case Evict(c, tid) => DoEvict(s, c, tid)
    case Remove(c, tid) => DoTakeOff(s, c, tid)
    case Expire(name) => s.(lists := s.lists - {name}, base := s.base[name := |HistoryOf(s, name)|])
    case BoxMoves(c, e) =>
      if c in s.clients && !e.Offered? then SetClient(s, c, s.clients[c].(box := BoxStep(s.clients[c].box, e))) else s
    case FindToSubscribe(c, name, lastN) =>
      if c in s.clients && s.clients[c].pc == Idle then
        if name in s.live then Goto(s, c, SubGot(name, s.live[name], lastN)) else Finish(s, c)
      else s
    case Add(c) => DoAdd(s, c)
    case FetchReplay(c, reply) => DoFetch(s, c, reply)
    case ReplayOne(c) => DoReplayOne(s, c)
    case ReplayDone(c) =>
      if c in s.clients && s.clients[c].pc.Replaying? && s.clients[c].pc.rest == [] then Finish(s, c) else s
    case FindToPublish(c, name, message) =>
      if c in s.clients && s.clients[c].pc == Idle then
        if name in s.live then Goto(s, c, PubGot(name, s.live[name], message)) else Finish(s, c)
      else s
    case PushMessage(c, reply) => DoPush(s, c, reply)
    case TrimList(c, reply) => DoTrim(s, c, reply)
    case Count(c) => DoCount(s, c)
    case Snapshot(c) => DoSnapshot(s, c)
    case SendOne(c, to) => DoSendOne(s, c, to)
    case SendDone(c) => DoSendDone(s, c)
  }

  function Run(actions: seq<Action>): State {
    if actions == [] then START else Step(Run(actions[..|actions| - 1]), actions[|actions| - 1])
  }
}
