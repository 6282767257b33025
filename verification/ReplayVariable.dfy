/**
 The replay loop puts the address of its loop variable into each frame it sends. In the module's language version, Go
 1.21, all rounds share that one variable, so a queued replay frame carries whatever the variable holds when the write
 loop encodes the frame.
 */
module ReplayVariable {
  import opened Model
  import opened Mailbox

  /** A frame in the queue: the replay frame of one round, or a frame of its own that others sent. */
  datatype Queued = RoundFrame(round: nat) | Other

  datatype State = State(
    box: Box<Queued>,
    begun: nat,     // rounds that have set the variable; it holds the message of round begun - 1
    sent: nat,         // rounds that have sent their frame
    shown: seq<nat>)   // for each frame written through the queue, the round whose message the variable held

  datatype Action = Assign | Send | Environment(e: BoxEvent<Queued>)

  function Start(): State {
    State(NewBox(), 0, 0, [])
  }

  predicate WritesAt(box: Box<Queued>, e: BoxEvent<Queued>) {
    e.Flushed? && Writes(box)
  }

  /** One step of a replay of `rounds` messages; others offer only frames of their own. */
  function Step(rounds: nat, s: State, a: Action): State {
    match a
    case Assign => if s.sent == s.begun && s.begun < rounds then s.(begun := s.begun + 1) else s
    case Send => if s.sent < s.begun then s.(box := Offer(s.box, RoundFrame(s.sent)), sent := s.sent + 1) else s
    case Environment(e) =>
      if e.Offered? && e.item.RoundFrame? then s
      else
        var latest := if s.begun > 0 then s.begun - 1 else 0;
        s.(box := BoxStep(s.box, e), shown := if WritesAt(s.box, e) then s.shown + [latest] else s.shown)
  }

  function Run(rounds: nat, actions: seq<Action>): State {
    if actions == [] then Start()
    else Step(rounds, Run(rounds, actions[..|actions| - 1]), actions[|actions| - 1])
  }

  /** The round of the frame written `i`-th, if it is a replay frame. */
  predicate IsFrameOf(s: State, i: nat, round: nat) {
    i < |s.box.wire| && s.box.wire[i] == Data(RoundFrame(round))
  }

  ghost predicate Ok(rounds: nat, s: State) {
    && BoxOk(s.box)
    && s.sent <= s.begun <= s.sent + 1 && s.begun <= rounds
    && (forall k :: 0 <= k < |s.box.offered| && s.box.offered[k].RoundFrame? ==> s.box.offered[k].round < s.sent)
    && |s.shown| == Written(s.box)
    && (forall i: nat, round: nat {:trigger IsFrameOf(s, i, round)} :: IsFrameOf(s, i, round) ==>
          i < |s.shown| && round <= s.shown[i] < s.begun)
  }

  lemma SendKeeps(rounds: nat, s: State)
    requires Ok(rounds, s)
    ensures Ok(rounds, Step(rounds, s, Send))
  {
    var after := Step(rounds, s, Send);
    OfferOk(s.box, RoundFrame(s.sent));
    OfferWrites(s.box, RoundFrame(s.sent));
    forall i: nat, round: nat | IsFrameOf(after, i, round) ensures i < |after.shown| && round <= after.shown[i] < after.begun {
      assert IsFrameOf(s, i, round);
    }
  }

  /** Offering puts no queued frame on the wire. */
  lemma OfferWrites(box: Box<Queued>, item: Queued)
    requires BoxOk(box)
    ensures var after := Offer(box, item);
            && Written(after) == Written(box)
            && after.offered == box.offered + [item]
            && forall i :: 0 <= i < |after.wire| && after.wire[i].Data? ==> i < |box.wire| && after.wire[i] == box.wire[i]
  {}

  lemma EnvironmentWrites(box: Box<Queued>, e: BoxEvent<Queued>)
    requires BoxOk(box)
    ensures var after := BoxStep(box, e);
            && Written(after) == Written(box) + (if WritesAt(box, e) then 1 else 0)
            && after.offered == box.offered + (if e.Offered? then [e.item] else [])
            && (WritesAt(box, e) ==>
                  (after.wire == box.wire + [Data(box.inFlight.value)] && |box.wire| == Written(box)
                   && box.inFlight.value in box.offered))
            && (!WritesAt(box, e) ==>
                  forall i :: 0 <= i < |after.wire| && after.wire[i].Data? ==> i < |box.wire| && after.wire[i] == box.wire[i])
  {
    if WritesAt(box, e) {
      assert box.accepted[Written(box)..][0] == box.inFlight.value;
    } else if e.Offered? {
      OfferWrites(box, e.item);
    }
  }

  lemma EnvironmentKeeps(rounds: nat, s: State, e: BoxEvent<Queued>)
    requires Ok(rounds, s)
    ensures Ok(rounds, Step(rounds, s, Environment(e)))
  {
    var after := Step(rounds, s, Environment(e));
    if after != s {
      StepOk(s.box, e);
      EnvironmentWrites(s.box, e);
      assert forall k :: 0 <= k < |after.box.offered| && after.box.offered[k].RoundFrame? ==> after.box.offered[k] in s.box.offered;
      forall i: nat, round: nat | IsFrameOf(after, i, round)
        ensures i < |after.shown| && round <= after.shown[i] < after.begun
      {
        FrameKeeps(rounds, s, e, i, round);
      }
    }
  }

  lemma FrameKeeps(rounds: nat, s: State, e: BoxEvent<Queued>, i: nat, round: nat)
    requires Ok(rounds, s) && !(e.Offered? && e.item.RoundFrame?)
    requires IsFrameOf(Step(rounds, s, Environment(e)), i, round)
    ensures var after := Step(rounds, s, Environment(e));
            i < |after.shown| && round <= after.shown[i] < after.begun
  {
    EnvironmentWrites(s.box, e);
    if i < |s.box.wire| {
      assert IsFrameOf(s, i, round);
    } else {
      assert WritesAt(s.box, e) && i == |s.box.wire| && s.box.inFlight.value == RoundFrame(round);
    }
  }

  lemma {:induction false} RunKeeps(rounds: nat, actions: seq<Action>)
    ensures Ok(rounds, Run(rounds, actions))
  {
    if actions != [] {
      var s := Run(rounds, actions[..|actions| - 1]);
      RunKeeps(rounds, actions[..|actions| - 1]);
      match actions[|actions| - 1]
      case Assign =>
        forall i: nat, round: nat | IsFrameOf(Run(rounds, actions), i, round)
          ensures i < |s.shown| && round <= s.shown[i] < s.begun
        {
          assert IsFrameOf(s, i, round);
        }
      case Send => SendKeeps(rounds, s);
      case Environment(e) => EnvironmentKeeps(rounds, s, e);
    }
  }

  /** What some run of a replay of `rounds` messages leads to. */
  ghost predicate Reachable(rounds: nat, s: State) {
    exists actions :: Run(rounds, actions) == s
  }

  lemma ReachableOk(rounds: nat, s: State)
    requires Reachable(rounds, s)
    ensures Ok(rounds, s)
  {
    var actions :| Run(rounds, actions) == s;
    RunKeeps(rounds, actions);
  }

  /** In every run a replay frame is written with its own message or a newer one of the same replay, never an older one. */
  lemma ShownIsNoOlder(rounds: nat, s: State, i: nat, round: nat)
    requires Reachable(rounds, s) && IsFrameOf(s, i, round)
    ensures round < rounds && i < |s.shown| && round <= s.shown[i] < rounds
  {
    ReachableOk(rounds, s);
  }

  /** A written replay frame shows its own message exactly if the loop has not begun its next round by then. */
  lemma OwnMessageIffNoLaterRound(rounds: nat, s: State)
    requires Reachable(rounds, s) && WritesAt(s.box, Flushed) && s.box.inFlight.value.RoundFrame?
    ensures var after := Step(rounds, s, Environment(Flushed));
            var round, i := s.box.inFlight.value.round, |s.box.wire|;
            && IsFrameOf(after, i, round) && i < |after.shown|
            && (after.shown[i] == round <==> s.begun == round + 1)
  {
    ReachableOk(rounds, s);
    EnvironmentWrites(s.box, Flushed);
  }

  /** What a written replay frame shows: the latest round begun, and once the loop is over always the last one. */
  lemma ShowsLatestRound(rounds: nat, s: State)
    requires Reachable(rounds, s) && WritesAt(s.box, Flushed) && s.box.inFlight.value.RoundFrame?
    ensures s.begun > 0 && Step(rounds, s, Environment(Flushed)).shown == s.shown + [s.begun - 1]
    ensures s.sent == rounds ==> Step(rounds, s, Environment(Flushed)).shown == s.shown + [rounds - 1]
  {
    ReachableOk(rounds, s);
    EnvironmentWrites(s.box, Flushed);
  }

  // ---------------------------------------------------------------- when every schedule shows what was replayed

  /** Every replay frame on the wire shows the message the replay log returned at its place. */
  ghost predicate Faithful(replay: seq<Message>, s: State) {
    forall i: nat, round: nat {:trigger IsFrameOf(s, i, round)} :: IsFrameOf(s, i, round) ==>
      round < |replay| && i < |s.shown| && s.shown[i] < |replay| && replay[s.shown[i]] == replay[round]
  }

  /** After `k` rounds, each written before the next began. */
  lemma {:induction false} RoundByRound(rounds: nat, k: nat) returns (actions: seq<Action>)
    requires k <= rounds
    ensures var s := Run(rounds, actions);
            && s.begun == k && s.sent == k && s.box.queue == [] && s.box.inFlight == None
            && s.box.up && s.box.writing && !s.box.closed
  {
    if k == 0 {
      actions := [];
    } else {
      var before := RoundByRound(rounds, k - 1);
      var s := Run(rounds, before);
      actions := before + [Assign] + [Send] + [Environment(Taken)] + [Environment(Flushed)];
      Longer(rounds, before, Assign);
      Longer(rounds, before + [Assign], Send);
      Longer(rounds, before + [Assign] + [Send], Environment(Taken));
      Longer(rounds, before + [Assign] + [Send] + [Environment(Taken)], Environment(Flushed));
    }
  }

  lemma Longer(rounds: nat, actions: seq<Action>, a: Action)
    ensures Run(rounds, actions + [a]) == Step(rounds, Run(rounds, actions), a)
  {
    assert (actions + [a])[..|actions|] == actions;
  }

  /** If the next round begins before a round's frame is written, the frame shows the next round's message. */
  lemma LateWrite(rounds: nat, round: nat) returns (actions: seq<Action>, i: nat)
    requires round + 1 < rounds
    ensures var s := Run(rounds, actions);
            IsFrameOf(s, i, round) && i < |s.shown| && s.shown[i] == round + 1
  {
    var before := NextRoundBegun(rounds, round);
    Longer(rounds, before, Environment(Flushed));
    actions := before + [Environment(Flushed)];
    RunKeeps(rounds, before);
    i := |Run(rounds, before).box.wire|;
    EnvironmentWrites(Run(rounds, before).box, Flushed);
  }

  /** A round's frame is about to be written when the next round has set the variable. */
  lemma NextRoundBegun(rounds: nat, round: nat) returns (actions: seq<Action>)
    requires round + 1 < rounds
    ensures var s := Run(rounds, actions);
            s.begun == round + 2 && s.box.inFlight == Some(RoundFrame(round)) && s.box.up
  {
    var before := RoundByRound(rounds, round);
    var sent := before + [Assign] + [Send];
    Longer(rounds, before, Assign);
    Longer(rounds, before + [Assign], Send);
    Longer(rounds, sent, Assign);
    Longer(rounds, sent + [Assign], Environment(Taken));
    actions := sent + [Assign] + [Environment(Taken)];
  }

  /**
   A replay is shown as it was fetched in every run if and only if all its messages are equal, which with distinct
   message identifiers means that it holds one message at most.
   */
  lemma FaithfulIffAllEqual(replay: seq<Message>)
    ensures (forall s :: Reachable(|replay|, s) ==> Faithful(replay, s))
            <==> (forall k :: 0 < k < |replay| ==> replay[k] == replay[k - 1])
  {
    if forall k :: 0 < k < |replay| ==> replay[k] == replay[k - 1] {
      forall s | Reachable(|replay|, s) ensures Faithful(replay, s) {
        EqualIsFaithful(replay, s);
      }
    } else {
      var k :| 0 < k < |replay| && replay[k] != replay[k - 1];
      var s := UnequalIsNot(replay, k - 1);
    }
  }

  lemma EqualIsFaithful(replay: seq<Message>, s: State)
    requires Reachable(|replay|, s) && forall k :: 0 < k < |replay| ==> replay[k] == replay[k - 1]
    ensures Faithful(replay, s)
  {
    forall i: nat, round: nat | IsFrameOf(s, i, round)
      ensures round < |replay| && i < |s.shown| && s.shown[i] < |replay| && replay[s.shown[i]] == replay[round]
    {
      ShownIsNoOlder(|replay|, s, i, round);
      AllEqual(replay, round, s.shown[i]);
    }
  }

  lemma UnequalIsNot(replay: seq<Message>, k: nat) returns (s: State)
    requires k + 1 < |replay| && replay[k] != replay[k + 1]
    ensures Reachable(|replay|, s) && !Faithful(replay, s)
  {
    var actions, i := LateWrite(|replay|, k);
    s := Run(|replay|, actions);
    assert IsFrameOf(s, i, k);
  }

  lemma {:induction false} AllEqual(replay: seq<Message>, from: nat, upto: nat)
    requires from <= upto < |replay| && forall k :: 0 < k < |replay| ==> replay[k] == replay[k - 1]
    ensures replay[upto] == replay[from]
    decreases upto - from
  {
    if from < upto {
      AllEqual(replay, from, upto - 1);
    }
  }

  // ---------------------------------------------------------------- which rounds are shown for sure

  /** Some replay frame written shows the message of round `r`. */
  ghost predicate RoundIsShown(s: State, r: nat) {
    exists i: nat, round: nat :: IsFrameOf(s, i, round) && i < |s.shown| && s.shown[i] == r
  }

  /** A step that writes a replay frame while round `r` is the latest begun. */
  predicate WritesDuring(s: State, a: Action, r: nat) {
    a.Environment? && WritesAt(s.box, a.e) && s.box.inFlight.value.RoundFrame? && s.begun == r + 1
  }

  lemma FramesStay(rounds: nat, s: State, a: Action, i: nat, round: nat)
    requires Ok(rounds, s) && IsFrameOf(s, i, round)
    ensures var after := Step(rounds, s, a);
            IsFrameOf(after, i, round) && i < |s.shown| && i < |after.shown| && after.shown[i] == s.shown[i]
  {
    if a.Send? {
      OfferWrites(s.box, RoundFrame(s.sent));
    } else if a.Environment? {
      EnvironmentWrites(s.box, a.e);
    }
  }

  /** A frame that is new on the wire shows the latest round. */
  lemma NewFrame(rounds: nat, s: State, a: Action, i: nat, round: nat)
    requires Ok(rounds, s) && IsFrameOf(Step(rounds, s, a), i, round) && !IsFrameOf(s, i, round)
    ensures i < |Step(rounds, s, a).shown| && WritesDuring(s, a, Step(rounds, s, a).shown[i])
  {
    if a.Send? {
      OfferWrites(s.box, RoundFrame(s.sent));
    } else if a.Environment? {
      EnvironmentWrites(s.box, a.e);
      var item := s.box.inFlight.value;
      assert item in s.box.offered;
    }
  }

  lemma ShownStep(rounds: nat, s: State, a: Action, r: nat)
    requires Ok(rounds, s)
    ensures RoundIsShown(Step(rounds, s, a), r) <==> RoundIsShown(s, r) || WritesDuring(s, a, r)
  {
    var after := Step(rounds, s, a);
    if RoundIsShown(s, r) {
      var i: nat, round: nat :| IsFrameOf(s, i, round) && i < |s.shown| && s.shown[i] == r;
      FramesStay(rounds, s, a, i, round);
    }
    if RoundIsShown(after, r) && !RoundIsShown(s, r) {
      var i: nat, round: nat :| IsFrameOf(after, i, round) && i < |after.shown| && after.shown[i] == r;
      if IsFrameOf(s, i, round) {
        FramesStay(rounds, s, a, i, round);
      } else {
        NewFrame(rounds, s, a, i, round);
      }
    }
    if WritesDuring(s, a, r) {
      EnvironmentWrites(s.box, a.e);
      assert IsFrameOf(after, |s.box.wire|, s.box.inFlight.value.round);
    }
  }

  ghost predicate WrittenDuring(rounds: nat, actions: seq<Action>, r: nat)
    decreases |actions|
  {
    actions != [] &&
    var before := actions[..|actions| - 1];
    WrittenDuring(rounds, before, r) || WritesDuring(Run(rounds, before), actions[|actions| - 1], r)
  }

  /** The message of a round is shown by some frame if and only if a frame of the replay was written between its beginning and the next. */
  lemma {:induction false} RoundShownIffWrittenDuring(rounds: nat, actions: seq<Action>, r: nat)
    ensures RoundIsShown(Run(rounds, actions), r) <==> WrittenDuring(rounds, actions, r)
  {
    if actions != [] {
      var before := actions[..|actions| - 1];
      RunKeeps(rounds, before);
      RoundShownIffWrittenDuring(rounds, before, r);
      ShownStep(rounds, Run(rounds, before), actions[|actions| - 1], r);
    }
  }

  /** The loop is over and the subscriber, still open, has had everything written. */
  predicate AllWritten(rounds: nat, s: State) {
    s.sent == rounds && !s.box.closed && s.box.queue == [] && s.box.inFlight == None
  }

  /** Every round that has sent its frame did offer it. */
  ghost predicate SentOffered(s: State) {
    forall r: nat :: r < s.sent ==> RoundFrame(r) in s.box.offered
  }

  lemma SentOfferedStep(rounds: nat, s: State, a: Action)
    requires Ok(rounds, s) && SentOffered(s)
    ensures SentOffered(Step(rounds, s, a))
  {
    var after := Step(rounds, s, a);
    match a
    case Assign =>
    case Send =>
      OfferWrites(s.box, RoundFrame(s.sent));
      forall r: nat | r < after.sent ensures RoundFrame(r) in after.box.offered {
        assert r < s.sent ==> RoundFrame(r) in s.box.offered;
      }
    case Environment(e) =>
      if after != s {
        EnvironmentWrites(s.box, e);
      }
  }

  lemma {:induction false} RunSentOffered(rounds: nat, actions: seq<Action>)
    ensures SentOffered(Run(rounds, actions))
  {
    if actions != [] {
      RunKeeps(rounds, actions[..|actions| - 1]);
      RunSentOffered(rounds, actions[..|actions| - 1]);
      SentOfferedStep(rounds, Run(rounds, actions[..|actions| - 1]), actions[|actions| - 1]);
    }
  }

  /** With everything written, the last round's frame is on the wire, and it shows the last round. */
  lemma LastRoundIsShown(rounds: nat, s: State)
    requires Reachable(rounds, s) && AllWritten(rounds, s) && rounds > 0
    ensures RoundIsShown(s, rounds - 1)
  {
    ReachableOk(rounds, s);
    var actions :| Run(rounds, actions) == s;
    RunSentOffered(rounds, actions);
    assert RoundFrame(rounds - 1) in s.box.offered;
    var i := OfferedIsWritten(s.box, RoundFrame(rounds - 1));
    assert IsFrameOf(s, i, rounds - 1);
  }

  lemma OfferedIsWritten(box: Box<Queued>, item: Queued) returns (i: nat)
    requires BoxOk(box) && !box.closed && box.queue == [] && box.inFlight == None && item in box.offered
    ensures i < |box.wire| && box.wire[i] == Data(item)
  {
    i :| 0 <= i < |box.offered| && box.offered[i] == item;
    assert box.accepted[Written(box)..] == [];
  }

  /** A quiet moment after `k` rounds at which no frame has shown round `r`. */
  predicate Skipped(s: State, k: nat, r: nat) {
    && s.begun == k && s.sent == k && s.box.queue == [] && s.box.inFlight == None
    && s.box.up && s.box.writing && !s.box.closed
    && forall i :: 0 <= i < |s.shown| ==> s.shown[i] != r
  }

  lemma OneRoundOn(rounds: nat, s: State, k: nat, r: nat)
    requires Skipped(s, k, r) && k < rounds && k != r
    ensures Skipped(Step(rounds, Step(rounds, Step(rounds, Step(rounds, s, Assign), Send), Environment(Taken)), Environment(Flushed)), k + 1, r)
  {}

  lemma ReachableStep(rounds: nat, s: State, a: Action)
    requires Reachable(rounds, s)
    ensures Reachable(rounds, Step(rounds, s, a))
  {
    var actions :| Run(rounds, actions) == s;
    Longer(rounds, actions, a);
  }

  lemma NextRound(rounds: nat, s: State, k: nat, r: nat) returns (t: State)
    requires Reachable(rounds, s) && Skipped(s, k, r) && k < rounds && k != r
    ensures Reachable(rounds, t) && Skipped(t, k + 1, r)
  {
    var begun := Step(rounds, s, Assign);
    var sent := Step(rounds, begun, Send);
    var taken := Step(rounds, sent, Environment(Taken));
    t := Step(rounds, taken, Environment(Flushed));
    ReachableStep(rounds, s, Assign);
    ReachableStep(rounds, begun, Send);
    ReachableStep(rounds, sent, Environment(Taken));
    ReachableStep(rounds, taken, Environment(Flushed));
    OneRoundOn(rounds, s, k, r);
  }

  /** Rounds `k` to `upto`, one after the other. */
  lemma {:induction false} RoundsOn(rounds: nat, s: State, k: nat, upto: nat, r: nat) returns (t: State)
    requires Reachable(rounds, s) && Skipped(s, k, r) && k <= upto <= rounds && !(k <= r < upto)
    ensures Reachable(rounds, t) && Skipped(t, upto, r)
    decreases upto - k
  {
    if k == upto {
      t := s;
    } else {
      var next := NextRound(rounds, s, k, r);
      t := RoundsOn(rounds, next, k + 1, upto, r);
    }
  }

  /** Round `r` sends, the next round begins and sends, and only then both frames are written. */
  lemma SkipRound(rounds: nat, s: State, r: nat) returns (t: State)
    requires Reachable(rounds, s) && Skipped(s, r, r) && r + 1 < rounds
    ensures Reachable(rounds, t) && Skipped(t, r + 2, r)
  {
    var both := TwoSent(rounds, s, r);
    t := TwoWritten(rounds, both, r);
  }

  lemma TwoSent(rounds: nat, s: State, r: nat) returns (t: State)
    requires Reachable(rounds, s) && Skipped(s, r, r) && r + 1 < rounds
    ensures Reachable(rounds, t)
    ensures t.begun == r + 2 && t.sent == r + 2 && t.shown == s.shown && t.box.inFlight == None
    ensures t.box.queue == [RoundFrame(r), RoundFrame(r + 1)] && t.box.up && t.box.writing && !t.box.closed
  {
    var one := Step(rounds, s, Assign);
    var two := Step(rounds, one, Send);
    var three := Step(rounds, two, Assign);
    t := Step(rounds, three, Send);
    ReachableStep(rounds, s, Assign);
    ReachableStep(rounds, one, Send);
    ReachableStep(rounds, two, Assign);
    ReachableStep(rounds, three, Send);
  }

  lemma TwoWritten(rounds: nat, s: State, r: nat) returns (t: State)
    requires Reachable(rounds, s) && s.begun == r + 2 && s.sent == r + 2 && s.box.inFlight == None
    requires s.box.queue == [RoundFrame(r), RoundFrame(r + 1)] && s.box.up && s.box.writing && !s.box.closed
    requires forall i :: 0 <= i < |s.shown| ==> s.shown[i] != r
    ensures Reachable(rounds, t) && Skipped(t, r + 2, r)
  {
    var one := Step(rounds, s, Environment(Taken));
    var two := Step(rounds, one, Environment(Flushed));
    var three := Step(rounds, two, Environment(Taken));
    t := Step(rounds, three, Environment(Flushed));
    ReachableStep(rounds, s, Environment(Taken));
    ReachableStep(rounds, one, Environment(Flushed));
    ReachableStep(rounds, two, Environment(Taken));
    ReachableStep(rounds, three, Environment(Flushed));
  }

  lemma RoundCanBeMissed(rounds: nat, r: nat) returns (s: State)
    requires r + 1 < rounds
    ensures Reachable(rounds, s) && AllWritten(rounds, s) && !RoundIsShown(s, r)
  {
    assert Run(rounds, []) == Start();
    var before := RoundsOn(rounds, Start(), 0, r, r);
    var after := SkipRound(rounds, before, r);
    s := RoundsOn(rounds, after, r + 2, rounds, r);
  }

  /**
   What a subscriber that stays open and reads all its frames is sure to see of a replay, whatever the schedule: the
   message of the last round, and of no other.
   */
  lemma OnlyLastRoundIsSure(rounds: nat, r: nat)
    requires r < rounds
    ensures (forall s :: Reachable(rounds, s) && AllWritten(rounds, s) ==> RoundIsShown(s, r)) <==> r == rounds - 1
  {
    if r == rounds - 1 {
      forall s | Reachable(rounds, s) && AllWritten(rounds, s) ensures RoundIsShown(s, r) {
        LastRoundIsShown(rounds, s);
      }
    } else {
      var s := RoundCanBeMissed(rounds, r);
    }
  }
}
