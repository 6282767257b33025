/** Reading one client's frames: which answer requests, and which topic messages stand inside a subscription. */
module Sessions {
  import opened Model
  import opened Mailbox
  import opened FlatBroker

  /** The request identifiers answered, in order. */
  function Responses(frames: seq<ServerMessage>): seq<RequestId> {
    if frames == [] then []
    else
      var earlier, last := Responses(frames[..|frames| - 1]), frames[|frames| - 1];
      if IsResponse(last) then earlier + [last.requestId] else earlier
  }

  predicate Opens(frame: ServerMessage, n: Name) {
    frame.Ack? && frame.topic == n && frame.info == Subscribed
  }

  predicate Ends(frame: ServerMessage, n: Name) {
    (frame.Ack? && frame.topic == n && frame.info == Unsubscribed) || (frame.TopicDeleted? && frame.topic == n)
  }

  /** Of the frames that open or end a subscription to `n`, the last one opens it. */
  predicate InSession(frames: seq<ServerMessage>, n: Name) {
    frames != [] &&
    var last := frames[|frames| - 1];
    Opens(last, n) || (!Ends(last, n) && InSession(frames[..|frames| - 1], n))
  }

  ghost predicate OnlyDeliveries(frames: seq<ServerMessage>, i: nat, j: nat, n: Name) {
    i <= j <= |frames| && forall k :: i <= k < j ==> IsDelivery(frames[k], n)
  }

  /** From `i` on there are only messages of `n`, up to the acknowledgement of a subscribe. */
  ghost predicate InAcknowledgedReplay(frames: seq<ServerMessage>, i: nat, n: Name) {
    exists j :: i < j < |frames| && OnlyDeliveries(frames, i, j, n) && Opens(frames[j], n)
  }

  /** Every message of `n` comes inside a subscription, or in the replay that an acknowledgement then closes. */
  ghost predicate Legal(frames: seq<ServerMessage>, n: Name) {
    forall i {:trigger IsDelivery(frames[i], n)} :: 0 <= i < |frames| && IsDelivery(frames[i], n) ==>
      InSession(frames[..i], n) || InAcknowledgedReplay(frames, i, n)
  }

  lemma {:induction false} ResponsesOfConcat(a: seq<ServerMessage>, b: seq<ServerMessage>)
    ensures Responses(a + b) == Responses(a) + Responses(b)
  {
    if b == [] {
      assert a + b == a;
    } else {
      var fewer := b[..|b| - 1];
      ResponsesOfConcat(a, fewer);
      assert (a + b)[..|a + b| - 1] == a + fewer;
    }
  }

  lemma {:induction false} NoResponses(frames: seq<ServerMessage>)
    requires forall i :: 0 <= i < |frames| ==> !IsResponse(frames[i])
    ensures Responses(frames) == []
  {
    if frames != [] {
      NoResponses(frames[..|frames| - 1]);
    }
  }

  lemma {:induction false} ResponsesOfPrefix(frames: seq<ServerMessage>, k: nat)
    requires k <= |frames|
    ensures Prefix(Responses(frames[..k]), Responses(frames))
  {
    ResponsesOfConcat(frames[..k], frames[k..]);
    assert frames == frames[..k] + frames[k..];
  }

  lemma {:induction false} SessionAfterDeliveries(frames: seq<ServerMessage>, more: seq<ServerMessage>, n: Name)
    requires forall i :: 0 <= i < |more| ==> IsMessage(more[i])
    ensures InSession(frames + more, n) == InSession(frames, n)
  {
    if more == [] {
      assert frames + more == frames;
    } else {
      var fewer := more[..|more| - 1];
      SessionAfterDeliveries(frames, fewer, n);
      assert (frames + more)[..|frames + more| - 1] == frames + fewer;
    }
  }

  lemma SessionAfter(frames: seq<ServerMessage>, frame: ServerMessage, n: Name)
    ensures InSession(frames + [frame], n) == (Opens(frame, n) || (!Ends(frame, n) && InSession(frames, n)))
  {
    assert (frames + [frame])[..|frames|] == frames;
  }

  /** What was legal stays so however the sequence goes on. */
  lemma LegalEarlier(frames: seq<ServerMessage>, more: seq<ServerMessage>, n: Name, i: nat)
    requires Legal(frames, n) && i < |frames| && IsDelivery(frames[i], n)
    ensures InSession((frames + more)[..i], n) || InAcknowledgedReplay(frames + more, i, n)
  {
    assert (frames + more)[..i] == frames[..i];
    if !InSession(frames[..i], n) {
      var j :| i < j < |frames| && OnlyDeliveries(frames, i, j, n) && Opens(frames[j], n);
      assert OnlyDeliveries(frames + more, i, j, n) && Opens((frames + more)[j], n);
    }
  }

  lemma LegalAppend(frames: seq<ServerMessage>, frame: ServerMessage, n: Name)
    requires Legal(frames, n)
    requires IsDelivery(frame, n) ==> InSession(frames, n)
    ensures Legal(frames + [frame], n)
  {
    var longer := frames + [frame];
    forall i | 0 <= i < |longer| && IsDelivery(longer[i], n)
      ensures InSession(longer[..i], n) || InAcknowledgedReplay(longer, i, n)
    {
      if i < |frames| {
        LegalEarlier(frames, [frame], n, i);
      } else {
        assert longer[..i] == frames;
      }
    }
  }

  /** A replay closed by its acknowledgement is legal wherever it stands. */
  lemma LegalReplay(frames: seq<ServerMessage>, replay: seq<ServerMessage>, ack: ServerMessage, topic: Name, n: Name)
    requires Legal(frames, n) && Opens(ack, topic)
    requires forall i :: 0 <= i < |replay| ==> IsDelivery(replay[i], topic)
    ensures Legal(frames + replay + [ack], n)
  {
    var all := frames + replay + [ack];
    assert all == frames + (replay + [ack]);
    forall i | 0 <= i < |all| && IsDelivery(all[i], n)
      ensures InSession(all[..i], n) || InAcknowledgedReplay(all, i, n)
    {
      if i < |frames| {
        LegalEarlier(frames, replay + [ack], n, i);
      } else {
        var j := |frames| + |replay|;
        assert all[j] == ack;
        assert i < j && all[i] == replay[i - |frames|];
        assert OnlyDeliveries(all, i, j, n);
      }
    }
  }
}
