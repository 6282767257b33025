/** One subscriber's bounded queue, close flag and connection, with `SendMessage` as one step. */
module Mailbox {
  import opened Model

  /** What reaches the connection: queued items, and the notice the slow-consumer path writes directly. */
  datatype Frame<T> = Data(item: T) | SlowConsumerNotice

  datatype Box<T> = Box(
    queue: seq<T>,       // the channel's buffer
    closed: bool,        // the close flag, set together with closing the channel
    inFlight: Option<T>, // taken from the channel by the write loop, not yet written
    writing: bool,       // the write loop has not returned
    up: bool,            // the connection still takes frames
    wire: seq<Frame<T>>,
    offered: seq<T>,     // every item passed to SendMessage
    accepted: seq<T>)    // every item SendMessage returned true for

  function NewBox<T>(): Box<T> {
    Box([], false, None, true, true, [], [], [])
  }

  predicate HasRoom<T>(box: Box<T>) {
    |box.queue| < SUBSCRIBER_QUEUE_SIZE
  }

  function HandleSlow<T>(box: Box<T>): Box<T> {
    if box.closed then box
    else
      box.(wire := if box.up then box.wire + [SlowConsumerNotice] else box.wire, up := false, closed := true)
  }

  function CloseBox<T>(box: Box<T>): Box<T> {
    if box.closed then box else box.(up := false, closed := true)
  }

  predicate Accepts<T>(box: Box<T>) {
    !box.closed && HasRoom(box)
  }

  function Offer<T>(box: Box<T>, item: T): Box<T> {
    var offered := box.(offered := box.offered + [item]);
    if box.closed then offered
    else if HasRoom(box) then offered.(queue := box.queue + [item], accepted := box.accepted + [item])
    else HandleSlow(offered)
  }

  function OfferAll<T>(box: Box<T>, items: seq<T>): Box<T> {
    if items == [] then box else Offer(OfferAll(box, items[..|items| - 1]), items[|items| - 1])
  }

  /** The receive half of one write-loop round: blocked on an empty open queue, over on an empty closed one. */
  function Take<T>(box: Box<T>): Box<T> {
    if !box.writing || box.inFlight.Some? then box
    else if box.queue != [] then box.(inFlight := Some(box.queue[0]), queue := box.queue[1..])
    else if box.closed then box.(writing := false)
    else box
  }

  /** The write half: a failed write closes the subscriber and ends the loop. */
  function Put<T>(box: Box<T>): Box<T> {
    if box.inFlight.None? then box
    else if box.up then box.(wire := box.wire + [Data(box.inFlight.value)], inFlight := None)
    else CloseBox(box.(inFlight := None, writing := false))
  }

  /** The write half puts a frame on the wire. */
  predicate Writes<T>(box: Box<T>) {
    box.inFlight.Some? && box.up
  }

  function LinkDown<T>(box: Box<T>): Box<T> {
    box.(up := false)
  }

  function Round<T>(box: Box<T>): Box<T> {
    Put(Take(box))
  }

  function Waiting<T>(box: Box<T>): nat {
    |box.queue| + if box.inFlight.Some? then 1 else 0
  }

  /** Rounds of the write loop until it blocks or returns. */
  function Drain<T>(box: Box<T>): Box<T>
    decreases Waiting(box)
  {
    if box.writing && Waiting(box) > 0 then Drain(Round(box)) else Round(box)
  }

  datatype BoxEvent<T> = Offered(item: T) | Closed | Taken | Flushed | Dropped

  function BoxStep<T>(box: Box<T>, e: BoxEvent<T>): Box<T> {
    match e
    case Offered(item) => Offer(box, item)
    case Closed => CloseBox(box)
    case Taken => Take(box)
    case Flushed => Put(box)
    case Dropped => LinkDown(box)
  }

  function BoxRun<T>(events: seq<BoxEvent<T>>): Box<T> {
    if events == [] then NewBox() else BoxStep(BoxRun(events[..|events| - 1]), events[|events| - 1])
  }

  predicate Prefix<T(==)>(a: seq<T>, b: seq<T>) {
    |a| <= |b| && a == b[..|a|]
  }

  predicate Noticed<T>(box: Box<T>) {
    box.wire != [] && box.wire[|box.wire| - 1].SlowConsumerNotice?
  }

  /** How many frames on the wire came through the queue, if the notice can only be the last frame. */
  function Written<T>(box: Box<T>): nat {
    if Noticed(box) then |box.wire| - 1 else |box.wire|
  }

  /**
   The wire holds the first accepted items in order, then the notice or nothing; while the write loop runs, the
   accepted items not yet written are the one in flight and the queue. Accepted items are the first offered ones,
   and all of them until the subscriber closes.
   */
  ghost predicate BoxOk<T>(box: Box<T>) {
    && Prefix(box.accepted, box.offered)
    && (!box.closed ==> box.accepted == box.offered)
    && (box.closed ==> !box.up)
    && |box.queue| <= SUBSCRIBER_QUEUE_SIZE
    && Written(box) <= |box.accepted|
    && (forall i :: 0 <= i < Written(box) ==> box.wire[i] == Data(box.accepted[i]))
    && (Noticed(box) ==> box.closed)
    && (box.writing ==>
          box.accepted[Written(box)..] == (if box.inFlight.Some? then [box.inFlight.value] else []) + box.queue)
    && (!box.writing ==> box.inFlight.None? && box.closed)
  }

  lemma AppendToSuffix<T>(items: seq<T>, from: nat, held: seq<T>, queue: seq<T>, item: T)
    requires from <= |items| && items[from..] == held + queue
    ensures (items + [item])[from..] == held + (queue + [item])
  {
    assert (items + [item])[from..] == items[from..] + [item];
  }

  lemma AcceptOk<T>(box: Box<T>, item: T)
    requires BoxOk(box) && Accepts(box)
    ensures BoxOk(Offer(box, item))
  {
    if box.writing {
      var held := if box.inFlight.Some? then [box.inFlight.value] else [];
      AppendToSuffix(box.accepted, Written(box), held, box.queue, item);
    }
    assert Offer(box, item).wire == box.wire;
  }

  lemma RefuseOk<T>(box: Box<T>, item: T)
    requires BoxOk(box) && !Accepts(box)
    ensures BoxOk(Offer(box, item))
  {
    var after := Offer(box, item);
    assert !box.closed && box.up ==> Noticed(after) && Written(after) == |box.wire|;
  }

  lemma OfferOk<T>(box: Box<T>, item: T)
    requires BoxOk(box)
    ensures BoxOk(Offer(box, item))
  {
    if Accepts(box) {
      AcceptOk(box, item);
    } else {
      RefuseOk(box, item);
    }
  }

  lemma TakeOk<T>(box: Box<T>)
    requires BoxOk(box)
    ensures BoxOk(Take(box))
  {
    if box.writing && box.inFlight.None? && box.queue != [] {
      assert [box.queue[0]] + box.queue[1..] == box.queue;
    }
  }

  lemma PutOk<T>(box: Box<T>)
    requires BoxOk(box)
    ensures BoxOk(Put(box))
  {
    if box.inFlight.Some? && box.up {
      var after := Put(box);
      var w := Written(box);
      assert Written(after) == w + 1;
      assert box.accepted[w..][0] == box.inFlight.value;
      assert after.accepted[w + 1..] == box.accepted[w..][1..];
    }
  }

  lemma StepOk<T>(box: Box<T>, e: BoxEvent<T>)
    requires BoxOk(box)
    ensures BoxOk(BoxStep(box, e))
  {
    match e
    case Offered(item) => OfferOk(box, item);
    case Taken => TakeOk(box);
    case Flushed => PutOk(box);
    case _ =>
  }

  /** Gap-free delivery over every run of sends, closes, write-loop steps and connection loss. */
  lemma {:induction false} RunOk<T>(events: seq<BoxEvent<T>>)
    ensures BoxOk(BoxRun(events))
  {
    if events != [] {
      RunOk(events[..|events| - 1]);
      StepOk(BoxRun(events[..|events| - 1]), events[|events| - 1]);
    }
  }

  /** What the client has read, apart from a last notice, is the beginning of what it was sent. */
  lemma WireIsPrefixOfOffered<T>(events: seq<BoxEvent<T>>, i: nat)
    ensures var box := BoxRun(events);
            i < |box.wire| ==>
              (i < |box.accepted| && i < |box.offered| && box.wire[i] == Data(box.offered[i]))
              || (i == |box.wire| - 1 && box.wire[i] == SlowConsumerNotice)
  {
    RunOk(events);
  }

  lemma {:induction false} StaysClosed<T>(before: seq<BoxEvent<T>>, later: seq<BoxEvent<T>>)
    requires BoxRun(before).closed
    ensures var box, after := BoxRun(before), BoxRun(before + later);
            after.closed && !after.up && after.accepted == box.accepted && after.wire == box.wire
  {
    if later == [] {
      RunOk(before);
      assert before + later == before;
    } else {
      var fewer := later[..|later| - 1];
      StaysClosed(before, fewer);
      LastStep(before, fewer, later[|later| - 1]);
      assert later == fewer + [later[|later| - 1]];
      RunOk(before + fewer);
      StepFinal(BoxRun(before + fewer), later[|later| - 1]);
    }
  }

  /** Closing is final: afterwards nothing is accepted or written, nothing reopens, and the write loop returns within a round. */
  lemma ClosedIsFinal<T>(before: seq<BoxEvent<T>>, later: seq<BoxEvent<T>>)
    requires BoxRun(before).closed
    ensures var box, after := BoxRun(before), BoxRun(before + later);
            && after.closed && !after.up && after.accepted == box.accepted && after.wire == box.wire
            && !Round(after).writing && Round(after).wire == after.wire
  {
    StaysClosed(before, later);
    RunOk(before + later);
    ClosedLoopStops(BoxRun(before + later));
  }

  lemma LastStep<T>(before: seq<BoxEvent<T>>, fewer: seq<BoxEvent<T>>, last: BoxEvent<T>)
    ensures BoxRun(before + (fewer + [last])) == BoxStep(BoxRun(before + fewer), last)
  {
    var run := before + (fewer + [last]);
    assert run[..|run| - 1] == before + fewer;
  }

  lemma StepFinal<T>(box: Box<T>, e: BoxEvent<T>)
    requires BoxOk(box) && box.closed
    ensures var after := BoxStep(box, e);
            after.closed && !after.up && after.accepted == box.accepted && after.wire == box.wire
  {}

  /**
   The first send that finds the queue full ends it: in every continuation nothing but what had been accepted before was,
   and the wire is what it was, ended by the notice if the connection still took it.
   */
  lemma OverflowIsFinal<T>(before: seq<BoxEvent<T>>, item: T, later: seq<BoxEvent<T>>)
    requires !BoxRun(before).closed && !HasRoom(BoxRun(before))
    ensures var box, after := BoxRun(before), BoxRun(before + [Offered(item)] + later);
            && after.closed && after.accepted == box.accepted
            && after.wire == box.wire + (if box.up then [SlowConsumerNotice] else [])
  {
    RunOk(before);
    LastStep(before, [], Offered(item));
    assert before + ([] + [Offered(item)]) == before + [Offered(item)] && before + [] == before;
    OverflowCloses(BoxRun(before), item);
    ClosedIsFinal(before + [Offered(item)], later);
  }

  lemma OverflowCloses<T>(box: Box<T>, item: T)
    requires BoxOk(box) && !box.closed && !HasRoom(box)
    ensures var after := Offer(box, item);
            && after.closed && !after.up
            && after.accepted == box.accepted && after.offered == box.offered + [item]
            && after.wire == box.wire + (if box.up then [SlowConsumerNotice] else [])
  {}

  lemma DownStays<T>(box: Box<T>, e: BoxEvent<T>)
    requires !box.up
    ensures !BoxStep(box, e).up && BoxStep(box, e).wire == box.wire
  {}

  /** Once the connection is lost nothing more reaches the wire, in every continuation. */
  lemma {:induction false} LostLinkIsFinal<T>(before: seq<BoxEvent<T>>, later: seq<BoxEvent<T>>)
    ensures var box, after := BoxRun(before), BoxRun(before + ([Dropped] + later));
            !after.up && after.wire == box.wire
  {
    if later == [] {
      var none: seq<BoxEvent<T>> := [];
      var dropped: seq<BoxEvent<T>> := [Dropped];
      LastStep(before, none, Dropped);
      assert none + [Dropped] == dropped + later && before + none == before;
    } else {
      var fewer := later[..|later| - 1];
      LostLinkIsFinal(before, fewer);
      LastStep(before, [Dropped] + fewer, later[|later| - 1]);
      assert [Dropped] + fewer + [later[|later| - 1]] == [Dropped] + later;
      DownStays(BoxRun(before + ([Dropped] + fewer)), later[|later| - 1]);
    }
  }

  /** A close takes effect: the connection goes down and the queue takes nothing more. */
  lemma CloseCloses<T>(box: Box<T>)
    requires BoxOk(box)
    ensures var after := CloseBox(box);
            && after.closed && !after.up && after.queue == box.queue && after.wire == box.wire && after.accepted == box.accepted
  {}

  /** A new subscriber whose loop writes nothing accepts a burst of 100 items, all of them, and is closed by the next one. */
  lemma {:induction false} BurstOfOneHundred<T>(items: seq<T>)
    requires |items| <= 101
    ensures var box := OfferAll(NewBox<T>(), items);
            && box.accepted == box.queue == items[..if |items| <= 100 then |items| else 100]
            && box.offered == items && box.inFlight == None
            && (box.closed <==> |items| == 101) && (box.up <==> |items| <= 100)
            && box.wire == if |items| == 101 then [SlowConsumerNotice] else []
  {
    if items != [] {
      var fewer := items[..|items| - 1];
      BurstOfOneHundred(fewer);
      BurstGoesOn(OfferAll(NewBox<T>(), fewer), fewer, items[|items| - 1]);
      assert items == fewer + [items[|items| - 1]];
    }
  }

  lemma BurstGoesOn<T>(box: Box<T>, items: seq<T>, item: T)
    requires |items| <= 100 && box.accepted == items && box.queue == items && box.offered == items && box.inFlight == None
    requires !box.closed && box.up && box.wire == []
    ensures var after := Offer(box, item);
            && after.accepted == after.queue == (if |items| < 100 then items + [item] else items)
            && after.offered == items + [item] && after.inFlight == None
            && (after.closed <==> |items| == 100) && (after.up <==> |items| < 100)
            && after.wire == if |items| == 100 then [SlowConsumerNotice] else []
  {}

  /** The write loop of a closed subscriber returns within one more round and writes nothing in it. */
  lemma ClosedLoopStops<T>(box: Box<T>)
    requires BoxOk(box) && box.closed
    ensures !Round(box).writing && Round(box).wire == box.wire
  {}

  /** Left alone on a live connection, the loop writes every accepted item in order and empties the queue. */
  lemma {:induction false} DrainDelivers<T>(box: Box<T>)
    requires BoxOk(box)
    ensures BoxOk(Drain(box))
    ensures box.writing && box.up ==>
              var after := Drain(box);
              after.queue == [] && after.inFlight.None? && Written(after) == |after.accepted|
              && after.accepted == box.accepted && !after.closed
    decreases Waiting(box)
  {
    TakeOk(box);
    PutOk(Take(box));
    if box.writing && Waiting(box) > 0 {
      DrainDelivers(Round(box));
    }
  }
}
