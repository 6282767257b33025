/** The stored replay list: Redis list commands, their use by the storage, and what a fetch returns. */
module ReplayLog {
  import opened Model

  function LPush<T>(list: seq<T>, item: T): seq<T> {
    [item] + list
  }

  /** LRANGE: both ends inclusive, a negative index counts from the tail, a range outside the list is empty. */
  function LRange<T>(list: seq<T>, start: int, stop: int): seq<T> {
    var first := if start >= 0 then start else if start + |list| >= 0 then start + |list| else 0;
    var last := if stop < 0 then stop + |list| else if stop < |list| then stop else |list| - 1;
    if first > last || first >= |list| then [] else list[first..last + 1]
  }

  /** LTRIM keeps what LRANGE would return. */
  function LTrim<T>(list: seq<T>, start: int, stop: int): seq<T> {
    LRange(list, start, stop)
  }

  /** How a Redis call ends: done, not done, or done although the caller sees an error. */
  datatype Reply = Applied | Refused | Lost {
    predicate TookEffect() { !Refused? }
  }

  /** The Redis command reference on ranges: -1 is the last element, both ends count, and what is out of range is empty. */
  lemma RangesFromTheTail<T>(list: seq<T>, n: nat)
    ensures LRange(list, 0, -1) == list
    ensures n > 0 ==> LRange(list, 0 - n, -1) == LastN(list, n)
    ensures n > 0 && n <= |list| ==> LRange(list, 0, 0 - n) == list[..|list| - n + 1]
    ensures n >= |list| ==> LRange(list, n, n + 1) == []
    ensures LRange(list, n + 1, n) == []
    ensures 0 < n <= |list| ==> LRange(list, n - 1, n - 1) == [list[n - 1]]
  {}

  function Reversed<T>(items: seq<T>): (r: seq<T>)
    ensures |r| == |items|
    ensures forall i :: 0 <= i < |items| ==> r[i] == items[|items| - 1 - i]
  {
    if items == [] then [] else Reversed(items[1..]) + [items[0]]
  }

  function LastN<T>(items: seq<T>, n: nat): seq<T> {
    if n <= |items| then items[|items| - n..] else items
  }

  function Min(a: int, b: int): int {
    if a < b then a else b
  }

  /** `list` is the newest-first image of the tail of `history`; the part before `base` was lost to expiry. */
  ghost predicate Mirrors<T(!new)>(list: seq<T>, history: seq<T>, base: nat) {
    && base <= |history|
    && Min(REPLAY_BUFFER_SIZE, |history| - base) <= |list| <= |history| - base
    && forall j :: 0 <= j < |list| ==> list[j] == history[|history| - 1 - j]
  }

  lemma PushMirrors<T(!new)>(list: seq<T>, history: seq<T>, base: nat, item: T)
    requires Mirrors(list, history, base)
    ensures Mirrors(LPush(list, item), history + [item], base)
  {
    assert LPush(list, item)[1..] == list;
  }

  lemma TrimMirrors<T(!new)>(list: seq<T>, history: seq<T>, base: nat)
    requires Mirrors(list, history, base)
    ensures Mirrors(LTrim(list, 0, REPLAY_BUFFER_SIZE - 1), history, base)
    ensures |LTrim(list, 0, REPLAY_BUFFER_SIZE - 1)| <= REPLAY_BUFFER_SIZE
  {}

  /** A fetch of up to 100 entries is the end of the history, oldest first, however late the trims are. */
  lemma FetchIsLastOfHistory<T(!new)>(list: seq<T>, history: seq<T>, base: nat, n: int)
    requires Mirrors(list, history, base) && n > 0
    ensures n <= REPLAY_BUFFER_SIZE ==>
              Reversed(LRange(list, 0, n - 1)) == LastN(history, Min(n, |history| - base))
    ensures Reversed(LRange(list, 0, n - 1)) == LastN(history, Min(n, |list|))
  {
    var fetched := LRange(list, 0, n - 1);
    assert |fetched| == Min(n, |list|);
    var last := LastN(history, |fetched|);
    forall i | 0 <= i < |last| ensures Reversed(fetched)[i] == last[i] {
      assert Reversed(fetched)[i] == list[|fetched| - 1 - i];
    }
    assert Reversed(fetched) == last;
  }

  /** What can happen to one topic's list; publishers' pushes and trims may come in any order. */
  datatype ListEvent<T> = PushMade(item: T) | TrimMade | ExpiryCame

  datatype ListState<T> = ListState(list: seq<T>, history: seq<T>, base: nat)

  function ListStep<T>(s: ListState<T>, e: ListEvent<T>): ListState<T> {
    match e
    case PushMade(item) => s.(list := LPush(s.list, item), history := s.history + [item])
    case TrimMade => s.(list := LTrim(s.list, 0, REPLAY_BUFFER_SIZE - 1))
    case ExpiryCame => s.(list := [], base := |s.history|)
  }

  function ListRun<T>(events: seq<ListEvent<T>>): ListState<T> {
    if events == [] then ListState([], [], 0)
    else ListStep(ListRun(events[..|events| - 1]), events[|events| - 1])
  }

  /** Pushes that no trim and no expiry has followed. */
  function PushesSinceTrim<T>(events: seq<ListEvent<T>>): nat {
    if events == [] || !events[|events| - 1].PushMade? then 0
    else 1 + PushesSinceTrim(events[..|events| - 1])
  }

  /** Every run of pushes, trims and expiries keeps the list an image of the history's end, and short. */
  lemma {:induction false} ListRunMirrors<T(!new)>(events: seq<ListEvent<T>>)
    ensures var s := ListRun(events); Mirrors(s.list, s.history, s.base)
    ensures |ListRun(events).list| <= REPLAY_BUFFER_SIZE + PushesSinceTrim(events)
  {
    if events != [] {
      var before := events[..|events| - 1];
      ListRunMirrors(before);
      var s := ListRun(before);
      match events[|events| - 1]
      case PushMade(item) => PushMirrors(s.list, s.history, s.base, item);
      case TrimMade => TrimMirrors(s.list, s.history, s.base);
      case ExpiryCame =>
    }
  }

  /** However late and often the trims come, the newest hundred pushes since an expiry stay, and a fetch of them gets them all. */
  lemma HundredStay<T(!new)>(events: seq<ListEvent<T>>, n: int)
    requires 1 <= n <= 100
    ensures var s := ListRun(events);
            && s.base <= |s.history|
            && |Reversed(LRange(s.list, 0, n - 1))| == Min(n, |s.history| - s.base)
  {
    ListRunMirrors(events);
    var s := ListRun(events);
    FetchIsLastOfHistory(s.list, s.history, s.base, n);
  }

  /** With no push still untrimmed, a fetch of any size returns exactly the last min(n, 100, pushes). */
  lemma SettledFetch<T(!new)>(events: seq<ListEvent<T>>, n: int)
    requires n > 0 && PushesSinceTrim(events) == 0
    ensures ListRun(events).base <= |ListRun(events).history|
    ensures var s := ListRun(events);
            Reversed(LRange(s.list, 0, n - 1))
            == LastN(s.history, Min(n, Min(REPLAY_BUFFER_SIZE, |s.history| - s.base)))
  {
    ListRunMirrors(events);
    var s := ListRun(events);
    FetchIsLastOfHistory(s.list, s.history, s.base, n);
  }

  type Lists = map<Name, seq<Message>>

  function ListOf(lists: Lists, topic: Name): seq<Message> {
    if topic in lists then lists[topic] else []
  }

  datatype Saved = Saved(lists: Lists, ok: bool)

  /** Push, then trim; an error of either is reported, whatever it left in the list. */
  function Save(lists: Lists, topic: Name, message: Message, push: Reply, trim: Reply): Saved {
    var pushed := if push.TookEffect() then lists[topic := LPush(ListOf(lists, topic), message)] else lists;
    if !push.Applied? then Saved(pushed, false)
    else
      var trimmed := if trim.TookEffect()
                     then pushed[topic := LTrim(ListOf(pushed, topic), 0, REPLAY_BUFFER_SIZE - 1)] else pushed;
      Saved(trimmed, trim.Applied?)
  }

  /** The messages a replay request gets, oldest first; nothing when the call fails. */
  function Fetch(lists: Lists, topic: Name, lastN: int, reply: Reply): Option<seq<Message>> {
    if reply.Applied? then Some(Reversed(LRange(ListOf(lists, topic), 0, lastN - 1))) else None
  }

  class RedisStorage {
    const replaySize: nat
    var lists: Lists

    constructor (size: nat)
      ensures lists == map[] && replaySize == size
    {
      replaySize := size;
      lists := map[];
    }

    method SaveMessage(topicName: Name, message: Message, push: Reply, trim: Reply) returns (ok: bool)
      requires replaySize == REPLAY_BUFFER_SIZE
      modifies this`lists
      ensures lists == Save(old(lists), topicName, message, push, trim).lists
      ensures ok == Save(old(lists), topicName, message, push, trim).ok
      ensures ok <==> push.Applied? && trim.Applied?
      ensures push.Refused? ==> lists == old(lists)
      ensures forall n :: n != topicName ==> ListOf(lists, n) == ListOf(old(lists), n)
      ensures !push.Refused? ==> ListOf(lists, topicName) != [] && ListOf(lists, topicName)[0] == message
      ensures ok ==> |ListOf(lists, topicName)| <= 100
    {
      if push.TookEffect() {
        lists := lists[topicName := LPush(ListOf(lists, topicName), message)];
      }
      if !push.Applied? {
        return false;
      }
      if trim.TookEffect() {
        lists := lists[topicName := LTrim(ListOf(lists, topicName), 0, replaySize - 1)];
      }
      return trim.Applied?;
    }

    method GetReplayMessages(topicName: Name, lastN: int, reply: Reply) returns (messages: Option<seq<Message>>)
      ensures messages == Fetch(lists, topicName, lastN, reply)
      ensures messages.Some? <==> reply.Applied?
      ensures messages.Some? && 1 <= lastN ==>
                && |messages.value| == Min(lastN, |ListOf(lists, topicName)|)
                && forall i :: 0 <= i < |messages.value| ==>
                     messages.value[i] == ListOf(lists, topicName)[|messages.value| - 1 - i]
    {
      if !reply.Applied? {
        return None;
      }
      var data := LRange(ListOf(lists, topicName), 0, lastN - 1);
      var result: seq<Message> := [];
      var i := |data| - 1;
      while i >= 0
        invariant -1 <= i < |data|
        invariant |result| == |data| - 1 - i
        invariant forall k :: 0 <= k < |result| ==> result[k] == data[|data| - 1 - k]
      {
        result := result + [data[i]];
        i := i - 1;
      }
      assert result == Reversed(data);
      return Some(result);
    }
  }
}
