/** A connected client: its queue, close flag, connection and set of topics (internal/broker/subscriber.go). */
module Subscribers {
  import opened Model
  import opened Mailbox
  import opened FlatBroker

  class Subscriber {
    const clientID: ClientId
    var messageQueue: seq<ServerMessage>
    var isClosedFlag: bool
    var subscribedTopics: map<Name, bool>
    // the write loop and the connection
    var inFlight: Option<ServerMessage>
    var writeLoopRunning: bool
    var connectionUp: bool
    var wire: seq<Frame<ServerMessage>>
    // what was passed to SendMessage, and what it returned true for
    ghost var offered: seq<ServerMessage>
    ghost var accepted: seq<ServerMessage>

    ghost function BoxView(): Box<ServerMessage>
      reads this
    {
      Box(messageQueue, isClosedFlag, inFlight, writeLoopRunning, connectionUp, wire, offered, accepted)
    }

    ghost function View(): ClientState
      reads this
    {
      ClientState(BoxView(), subscribedTopics.Keys)
    }

    twostate predicate Same()
      reads this
    {
      && messageQueue == old(messageQueue) && isClosedFlag == old(isClosedFlag)
      && subscribedTopics == old(subscribedTopics) && inFlight == old(inFlight)
      && writeLoopRunning == old(writeLoopRunning) && connectionUp == old(connectionUp) && wire == old(wire)
      && offered == old(offered) && accepted == old(accepted)
    }

    constructor (clientID: ClientId)
      ensures this.clientID == clientID
      ensures View() == NewClient()
    {
      this.clientID := clientID;
      messageQueue, isClosedFlag, subscribedTopics := [], false, map[];
      inFlight, writeLoopRunning, connectionUp, wire := None, true, true, [];
      offered, accepted := [], [];
    }

    method SendMessage(serverMessage: ServerMessage) returns (ok: bool)
      modifies this
      ensures View() == Give(old(View()), serverMessage)
      ensures ok == Accepts(old(BoxView()))
    {
      offered := offered + [serverMessage];
      if isClosedFlag {
        return false;
      }
      if |messageQueue| < SUBSCRIBER_QUEUE_SIZE {
        messageQueue := messageQueue + [serverMessage];
        accepted := accepted + [serverMessage];
        return true;
      }
      HandleSlowConsumer();
      return false;
    }

    method HandleSlowConsumer()
      modifies this`wire, this`connectionUp, this`isClosedFlag
      ensures BoxView() == HandleSlow(old(BoxView()))
    {
      if isClosedFlag {
        return;
      }
      if connectionUp {
        wire := wire + [SlowConsumerNotice];
      }
      connectionUp := false;
      isClosedFlag := true;
    }

    method Close()
      modifies this`connectionUp, this`isClosedFlag
      ensures BoxView() == CloseBox(old(BoxView()))
    {
      if isClosedFlag {
        return;
      }
      connectionUp := false;
      isClosedFlag := true;
    }

    method IsClosed() returns (closed: bool)
      ensures closed == View().box.closed
    {
      return isClosedFlag;
    }

    method AddTopic(topicName: Name)
      modifies this`subscribedTopics
      ensures View() == old(View()).(topics := old(View()).topics + {topicName})
    {
      subscribedTopics := subscribedTopics[topicName := true];
    }

    method RemoveTopic(topicName: Name)
      modifies this`subscribedTopics
      ensures View() == old(View()).(topics := old(View()).topics - {topicName})
    {
      subscribedTopics := subscribedTopics - {topicName};
    }

    method GetSubscribedTopicCount() returns (count: nat)
      ensures count == |View().topics|
    {
      return |subscribedTopics|;
    }

    /** Each topic exactly once, in no particular order. */
    method GetSubscribedTopics() returns (topics: seq<Name>)
      ensures forall n :: n in topics <==> n in View().topics
      ensures forall i, j :: 0 <= i < j < |topics| ==> topics[i] != topics[j]
    {
      topics := [];
      var remaining := subscribedTopics.Keys;
      while remaining != {}
        invariant remaining <= subscribedTopics.Keys
        invariant forall n :: n in topics <==> n in subscribedTopics.Keys - remaining
        invariant forall i, j :: 0 <= i < j < |topics| ==> topics[i] != topics[j]
      {
        var topicName :| topicName in remaining;
        ghost var before := topics;
        topics := topics + [topicName];
        remaining := remaining - {topicName};
        assert forall n :: n in topics <==> n in before || n == topicName;
      }
    }

    /** Receives and writes until the loop blocks on an empty open queue or returns. */
    method WriteLoop()
      requires writeLoopRunning && inFlight.None?
      modifies this
      ensures View() == old(View()).(box := Drain(old(BoxView())))
    {
      ghost var before := BoxView();
      while writeLoopRunning && messageQueue != []
        invariant Drain(before) == Drain(BoxView())
        invariant inFlight.None?
        invariant subscribedTopics == old(subscribedTopics)
        decreases |messageQueue|
      {
        inFlight, messageQueue := Some(messageQueue[0]), messageQueue[1..];
        WriteInFlight();
      }
      if writeLoopRunning && isClosedFlag {
        writeLoopRunning := false;
      }
    }

    method WriteInFlight()
      requires inFlight.Some?
      modifies this
      ensures BoxView() == Put(old(BoxView()))
      ensures messageQueue == old(messageQueue) && subscribedTopics == old(subscribedTopics)
    {
      if connectionUp {
        wire := wire + [Data(inFlight.value)];
        inFlight := None;
      } else {
        inFlight := None;
        writeLoopRunning := false;
        Close();
      }
    }
  }
}
