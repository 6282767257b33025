/**
 One subscriber's close lock, close flag and queue, with any number of goroutines inside `SendMessage`,
 `HandleSlowConsumer` and `Close`, one statement at a time.
 */
module CloseOnce {
  import opened Model

  type Goroutine = nat

  datatype Call = Send | SlowConsumer | Close

  datatype Pc =
    | Outside
    | Locking(call: Call)
    | Checking(call: Call)        // holds the lock, reads the flag next
    | WritingNotice
    | ClosingConnection
    | ClosingQueue
    | SettingFlag
    | Unlocking(sends: bool)
    | Enqueuing                   // no lock held any more

  datatype State = State(
    pcs: map<Goroutine, Pc>,
    holder: Option<Goroutine>,
    flag: bool,
    closes: nat,       // how often the channel was closed; a second time, and any send after the first, panics
    notices: nat,
    up: bool,
    length: nat,
    panicked: bool)

  const START := State(map[], None, false, 0, 0, true, 0, false)

  datatype Action = Enter(g: Goroutine, call: Call) | Move(g: Goroutine) | Received

  function PcOf(s: State, g: Goroutine): Pc {
    if g in s.pcs then s.pcs[g] else Outside
  }

  function Goto(s: State, g: Goroutine, pc: Pc): State {
    s.(pcs := s.pcs[g := pc])
  }

  function AfterCheck(call: Call, flag: bool): Pc {
    match call
    case Send => Unlocking(!flag)
    case SlowConsumer => if flag then Unlocking(false) else WritingNotice
    case Close => if flag then Unlocking(false) else ClosingConnection
  }

  function MoveOf(s: State, g: Goroutine): State {
    match PcOf(s, g)
    case Outside => s
    case Locking(call) => if s.holder.None? then Goto(s, g, Checking(call)).(holder := Some(g)) else s
    case Checking(call) => Goto(s, g, AfterCheck(call, s.flag))
    case WritingNotice => Goto(s, g, ClosingConnection).(notices := s.notices + 1)
    case ClosingConnection => Goto(s, g, ClosingQueue).(up := false)
    case ClosingQueue => Goto(s, g, SettingFlag).(closes := s.closes + 1, panicked := s.panicked || s.closes > 0)
    case SettingFlag => Goto(s, g, Unlocking(false)).(flag := true)
    case Unlocking(sends) => Goto(s, g, if sends then Enqueuing else Outside).(holder := None)
    case Enqueuing =>
      if s.closes > 0 then Goto(s, g, Outside).(panicked := true)
      else if s.length < SUBSCRIBER_QUEUE_SIZE then Goto(s, g, Outside).(length := s.length + 1)
      else Goto(s, g, Locking(SlowConsumer))
  }

  function Step(s: State, a: Action): State {
    match a
    case Enter(g, call) => if PcOf(s, g) == Outside then Goto(s, g, Locking(call)) else s
    case Move(g) => MoveOf(s, g)
    case Received => if s.length > 0 then s.(length := s.length - 1) else s
  }

  function Run(actions: seq<Action>): State {
    if actions == [] then START else Step(Run(actions[..|actions| - 1]), actions[|actions| - 1])
  }

  predicate Holding(pc: Pc) {
    !pc.Outside? && !pc.Locking? && !pc.Enqueuing?
  }

  /** What the lock holder's place says of the flag and the queue. */
  predicate PcOk(s: State, pc: Pc) {
    match pc
    case WritingNotice => !s.flag && s.closes == 0 && s.notices == 0
    case ClosingConnection => !s.flag && s.closes == 0
    case ClosingQueue => !s.flag && s.closes == 0 && !s.up
    case SettingFlag => !s.flag && s.closes == 1
    case Unlocking(sends) => sends ==> !s.flag && s.closes == 0
    case _ => true
  }

  /** The part of the invariant that speaks of the closing, the notice and whoever is in the middle of them. */
  ghost predicate ClosingOk(s: State) {
    && s.closes <= 1 && s.notices <= 1 && (s.closes == 1 ==> !s.up)
    && (s.flag ==> s.closes == 1)
    && (s.closes == 1 && !s.flag ==> s.holder.Some? && PcOf(s, s.holder.value) == SettingFlag)
    && (s.notices == 1 && s.closes == 0 ==>
          s.holder.Some? && (PcOf(s, s.holder.value) == ClosingConnection || PcOf(s, s.holder.value) == ClosingQueue))
    && s.length <= SUBSCRIBER_QUEUE_SIZE
  }

  ghost predicate Ok(s: State) {
    && (forall g: Goroutine :: Holding(PcOf(s, g)) <==> s.holder == Some(g))
    && (forall g: Goroutine :: PcOk(s, PcOf(s, g)))
    && ClosingOk(s)
  }

  lemma MoveOk(s: State, g: Goroutine)
    requires Ok(s)
    ensures Ok(MoveOf(s, g))
  {
    var after := MoveOf(s, g);
    forall u: Goroutine ensures PcOk(after, PcOf(after, u)) && (Holding(PcOf(after, u)) <==> after.holder == Some(u)) {
      if u == g {
        MoverKeeps(s, g);
      } else {
        OthersKeep(s, g, u);
      }
    }
    MoveCloses(s, g);
  }

  lemma MoverKeeps(s: State, g: Goroutine)
    requires Ok(s)
    ensures var after := MoveOf(s, g);
            PcOk(after, PcOf(after, g)) && (Holding(PcOf(after, g)) <==> after.holder == Some(g))
  {
    assert PcOk(s, PcOf(s, g)) && (Holding(PcOf(s, g)) <==> s.holder == Some(g));
  }

  lemma OthersKeep(s: State, g: Goroutine, u: Goroutine)
    requires Ok(s) && u != g
    ensures var after := MoveOf(s, g);
            PcOk(after, PcOf(after, u)) && (Holding(PcOf(after, u)) <==> after.holder == Some(u))
  {
    assert Holding(PcOf(s, g)) <==> s.holder == Some(g);
    assert PcOk(s, PcOf(s, u)) && (Holding(PcOf(s, u)) <==> s.holder == Some(u));
  }

  lemma MoveCloses(s: State, g: Goroutine)
    requires Ok(s)
    ensures ClosingOk(MoveOf(s, g))
  {
    assert PcOk(s, PcOf(s, g)) && (Holding(PcOf(s, g)) <==> s.holder == Some(g));
  }

  lemma {:induction false} RunOk(actions: seq<Action>)
    ensures Ok(Run(actions))
  {
    if actions != [] {
      var s := Run(actions[..|actions| - 1]);
      RunOk(actions[..|actions| - 1]);
      match actions[|actions| - 1]
      case Enter(g, call) =>
        forall u: Goroutine ensures PcOk(Run(actions), PcOf(Run(actions), u)) {
          assert PcOk(s, PcOf(s, u));
        }
      case Move(g) => MoveOk(s, g);
      case Received =>
        forall u: Goroutine ensures PcOk(Run(actions), PcOf(Run(actions), u)) {
          assert PcOk(s, PcOf(s, u));
        }
    }
  }

  /**
   However many goroutines close the subscriber, the queue is closed at most once, after the connection, and at most
   one notice is written; whenever the lock is free, the flag says exactly whether the queue is closed.
   */
  lemma ClosedAtMostOnce(actions: seq<Action>)
    ensures var s := Run(actions);
            && s.closes <= 1 && s.notices <= 1 && (s.closes == 1 ==> !s.up)
            && (s.holder.None? ==> (s.flag <==> s.closes == 1))
            && (s.flag ==> s.closes == 1)
  {
    RunOk(actions);
  }

  // ---------------------------------------------------------------- a send and a close that overlap

  predicate ClosesQueue(s: State, a: Action) {
    a.Move? && PcOf(s, a.g) == ClosingQueue
  }

  /** Some step of `later`, run after `before`, closes the queue. */
  ghost predicate ClosedDuring(before: seq<Action>, later: seq<Action>) {
    exists j :: 0 <= j < |later| && ClosesQueue(Run(before + later[..j]), later[j])
  }

  lemma StepCloses(s: State, a: Action)
    ensures Step(s, a).closes == s.closes + if ClosesQueue(s, a) then 1 else 0
  {}

  lemma ClosedDuringLonger(before: seq<Action>, fewer: seq<Action>, last: Action)
    ensures ClosedDuring(before, fewer + [last]) <==> ClosedDuring(before, fewer) || ClosesQueue(Run(before + fewer), last)
  {
    var later := fewer + [last];
    assert later[..|fewer|] == fewer;
    assert forall j :: 0 <= j < |fewer| ==> fewer[..j] == later[..j] && fewer[j] == later[j];
  }

  lemma {:induction false} ClosesGrow(before: seq<Action>, later: seq<Action>)
    ensures Run(before + later).closes >= Run(before).closes
    ensures Run(before + later).closes > Run(before).closes <==> ClosedDuring(before, later)
  {
    if later == [] {
      assert before + later == before;
    } else {
      var fewer, last := later[..|later| - 1], later[|later| - 1];
      ClosesGrow(before, fewer);
      OneMoreCloses(before, fewer, last);
      assert later == fewer + [last];
    }
  }

  lemma OneMoreCloses(before: seq<Action>, fewer: seq<Action>, last: Action)
    ensures Run(before + (fewer + [last])).closes
            == Run(before + fewer).closes + if ClosesQueue(Run(before + fewer), last) then 1 else 0
    ensures ClosedDuring(before, fewer + [last]) <==> ClosedDuring(before, fewer) || ClosesQueue(Run(before + fewer), last)
  {
    RunLonger(before, fewer, last);
    ClosedDuringLonger(before, fewer, last);
    StepCloses(Run(before + fewer), last);
  }

  lemma RunLonger(before: seq<Action>, fewer: seq<Action>, last: Action)
    ensures Run(before + (fewer + [last])) == Step(Run(before + fewer), last)
  {
    var run := before + (fewer + [last]);
    assert run[..|run| - 1] == before + fewer;
  }

  /**
   A send that found the flag unset meets a closed queue, which panics, exactly when some goroutine closed the queue
   between the send's check of the flag and its enqueuing.
   */
  lemma SendPanicsIffClosedSinceCheck(before: seq<Action>, later: seq<Action>, g: Goroutine)
    requires PcOf(Run(before), g) == Checking(Send) && !Run(before).flag
    requires PcOf(Run(before + later), g) == Enqueuing && !Run(before + later).panicked
    ensures Step(Run(before + later), Move(g)).panicked <==> ClosedDuring(before, later)
  {
    RunOk(before);
    assert Holding(PcOf(Run(before), g));
    ClosesGrow(before, later);
  }

  /** With the check and the enqueuing as one step no send panics: that is what treating a send as one step leaves out. */
  lemma PanicNeedsOverlap(actions: seq<Action>, g: Goroutine)
    requires PcOf(Run(actions), g) == Checking(Send) && !Run(actions).panicked
    ensures !Step(Step(Step(Run(actions), Move(g)), Move(g)), Move(g)).panicked
  {
    RunOk(actions);
    assert Holding(PcOf(Run(actions), g)) && PcOk(Run(actions), PcOf(Run(actions), g));
  }

  /** Goroutine 1 has read the flag, unset, and gives the lock back; goroutine 2 waits for it to close the subscriber. */
  function Checked(): seq<Action> {
    [Enter(1, Send), Enter(2, Close), Move(1)]
  }

  /** The check and the unlock of goroutine 1, then goroutine 2's close as far as closing the queue. */
  function CloseBetween(): seq<Action> {
    [Move(1), Move(1), Move(2), Move(2), Move(2), Move(2)]
  }

  lemma Then(run: seq<Action>, a: Action, pcs: map<Goroutine, Pc>, s: State)
    requires Step(Run(run), a) == s && s.pcs == pcs
    ensures Run(run + [a]) == s && Run(run + [a]).pcs == pcs
  {
    assert (run + [a])[..|run|] == run;
  }

  function Both(sender: Pc, closer: Pc): map<Goroutine, Pc> {
    map[1 := sender, 2 := closer]
  }

  lemma EnteredRun()
    ensures Run([Enter(1, Send)] + [Enter(2, Close)]) == START.(pcs := Both(Locking(Send), Locking(Close)))
  {
    Then([], Enter(1, Send), map[1 := Locking(Send)], START.(pcs := map[1 := Locking(Send)]));
    assert [] + [Enter(1, Send)] == [Enter(1, Send)];
    Then([Enter(1, Send)], Enter(2, Close), Both(Locking(Send), Locking(Close)), START.(pcs := Both(Locking(Send), Locking(Close))));
  }

  lemma CheckedRun()
    ensures Run(Checked()) == START.(pcs := Both(Checking(Send), Locking(Close)), holder := Some(1))
  {
    EnteredRun();
    Then([Enter(1, Send)] + [Enter(2, Close)], Move(1), Both(Checking(Send), Locking(Close)),
         START.(pcs := Both(Checking(Send), Locking(Close)), holder := Some(1)));
    assert Checked() == [Enter(1, Send)] + [Enter(2, Close)] + [Move(1)];
  }

  lemma UncheckedSend()
    ensures Run(Checked() + [Move(1)] + [Move(1)]) == START.(pcs := Both(Enqueuing, Locking(Close)))
  {
    CheckedRun();
    var run := Checked();
    Then(run, Move(1), Both(Unlocking(true), Locking(Close)), START.(pcs := Both(Unlocking(true), Locking(Close)), holder := Some(1)));
    Then(run + [Move(1)], Move(1), Both(Enqueuing, Locking(Close)), START.(pcs := Both(Enqueuing, Locking(Close))));
  }

  lemma BetweenRun()
    ensures Run(Checked() + CloseBetween())
            == START.(pcs := Both(Enqueuing, SettingFlag), holder := Some(2), closes := 1, up := false)
  {
    UncheckedSend();
    var sent := Checked() + [Move(1)] + [Move(1)];
    var held := START.(holder := Some(2));
    Then(sent, Move(2), Both(Enqueuing, Checking(Close)), held.(pcs := Both(Enqueuing, Checking(Close))));
    Then(sent + [Move(2)], Move(2), Both(Enqueuing, ClosingConnection), held.(pcs := Both(Enqueuing, ClosingConnection)));
    var late := sent + [Move(2)] + [Move(2)];
    Then(late, Move(2), Both(Enqueuing, ClosingQueue), held.(pcs := Both(Enqueuing, ClosingQueue), up := false));
    Then(late + [Move(2)], Move(2), Both(Enqueuing, SettingFlag),
         held.(pcs := Both(Enqueuing, SettingFlag), closes := 1, up := false));
    assert Checked() + CloseBetween() == late + [Move(2)] + [Move(2)];
  }

  /** The overlap happens: a send that found the subscriber open can meet its queue closed. */
  lemma SendCanMeetClosedQueue()
    ensures PcOf(Run(Checked()), 1) == Checking(Send) && !Run(Checked()).flag
    ensures var s := Run(Checked() + CloseBetween());
            PcOf(s, 1) == Enqueuing && !s.panicked && Step(s, Move(1)).panicked
  {
    CheckedRun();
    BetweenRun();
  }

  // ---------------------------------------------------------------- each call does its work

  /** A goroutine that found the queue full is on its way through the slow-consumer path, or has come out of it with the queue closed. */
  predicate OnSlowPath(s: State, g: Goroutine) {
    match PcOf(s, g)
    case Locking(call) => call == SlowConsumer
    case Checking(call) => call == SlowConsumer
    case WritingNotice => true
    case ClosingConnection => true
    case ClosingQueue => true
    case SettingFlag => s.closes == 1
    case Unlocking(sends) => !sends && s.closes == 1
    case Outside => s.closes == 1
    case Enqueuing => false
  }

  lemma SlowPathStep(s: State, a: Action, g: Goroutine)
    requires Ok(s) && OnSlowPath(s, g) && !(a.Enter? && a.g == g)
    ensures OnSlowPath(Step(s, a), g)
  {
    assert PcOk(s, PcOf(s, g));
    if a.Move? {
      MoveOk(s, a.g);
      if a.g != g {
        OthersClose(s, a.g, g);
      }
    }
  }

  lemma OthersClose(s: State, g: Goroutine, u: Goroutine)
    requires u != g
    ensures PcOf(MoveOf(s, g), u) == PcOf(s, u) && MoveOf(s, g).closes >= s.closes
  {}

  function Continue(s: State, later: seq<Action>): State {
    if later == [] then s else Step(Continue(s, later[..|later| - 1]), later[|later| - 1])
  }

  /** What some run leads to. */
  ghost predicate Reachable(s: State) {
    exists actions :: Run(actions) == s
  }

  lemma ReachableOk(s: State)
    requires Reachable(s)
    ensures Ok(s)
  {
    var actions :| Run(actions) == s;
    RunOk(actions);
  }

  lemma StepOk(s: State, a: Action)
    requires Ok(s)
    ensures Ok(Step(s, a))
  {
    match a
    case Enter(g, call) =>
      forall u: Goroutine ensures PcOk(Step(s, a), PcOf(Step(s, a), u)) {
        assert PcOk(s, PcOf(s, u));
      }
    case Move(g) => MoveOk(s, g);
    case Received =>
      forall u: Goroutine ensures PcOk(Step(s, a), PcOf(Step(s, a), u)) {
        assert PcOk(s, PcOf(s, u));
      }
  }

  lemma {:induction false} SlowPathOn(s: State, later: seq<Action>, g: Goroutine)
    requires Ok(s) && OnSlowPath(s, g) && forall a: Action :: a in later ==> !(a.Enter? && a.g == g)
    ensures Ok(Continue(s, later)) && OnSlowPath(Continue(s, later), g)
  {
    if later != [] {
      SlowPathOn(s, later[..|later| - 1], g);
      StepOk(Continue(s, later[..|later| - 1]), later[|later| - 1]);
      SlowPathStep(Continue(s, later[..|later| - 1]), later[|later| - 1], g);
    }
  }

  /** At a full open queue: the goroutine's next move is its enqueuing. */
  predicate AtFullQueue(s: State, g: Goroutine) {
    PcOf(s, g) == Enqueuing && s.closes == 0 && s.length == 100
  }

  /** `now` follows on that move without the goroutine entering another call. */
  ghost predicate AfterFull(s: State, g: Goroutine, now: State) {
    exists later :: (forall a: Action :: a in later ==> !(a.Enter? && a.g == g)) && Continue(Step(s, Move(g)), later) == now
  }

  /**
   A send that meets a full queue closes the subscriber: whatever the other goroutines do meanwhile, when the send is over
   the queue has been closed, by it or by one of them, and the connection is down.
   */
  lemma FullQueueCloses(s: State, g: Goroutine, now: State)
    requires Reachable(s) && AtFullQueue(s, g) && AfterFull(s, g, now) && PcOf(now, g) == Outside
    ensures now.closes == 1 && !now.up
  {
    var later :| (forall a: Action :: a in later ==> !(a.Enter? && a.g == g)) && Continue(Step(s, Move(g)), later) == now;
    ReachableOk(s);
    StepOk(s, Move(g));
    SlowPathOn(Step(s, Move(g)), later, g);
  }

  /** `k` moves of one goroutine. */
  function Moves(s: State, g: Goroutine, k: nat): State
    decreases k
  {
    if k == 0 then s else Moves(MoveOf(s, g), g, k - 1)
  }

  lemma Moves4(s: State, g: Goroutine)
    ensures Moves(s, g, 4) == MoveOf(MoveOf(MoveOf(MoveOf(s, g), g), g), g)
  {
    assert Moves(MoveOf(s, g), g, 3) == Moves(MoveOf(MoveOf(s, g), g), g, 2);
    assert Moves(MoveOf(MoveOf(MoveOf(s, g), g), g), g, 1) == Moves(MoveOf(MoveOf(MoveOf(MoveOf(s, g), g), g), g), g, 0);
  }

  lemma MovesOn(s: State, g: Goroutine, j: nat, k: nat)
    ensures Moves(s, g, j + k) == Moves(Moves(s, g, j), g, k)
    decreases j
  {
    if j > 0 {
      MovesOn(MoveOf(s, g), g, j - 1, k);
    }
  }

  /** Alone, from a free lock, the send that meets a full queue writes one notice, closes and sets the flag. */
  lemma FullQueueAlone(s: State, g: Goroutine)
    requires Reachable(s) && AtFullQueue(s, g) && s.holder == None
    ensures var after := Moves(s, g, 8);
            && PcOf(after, g) == Outside && after.holder == None
            && after.flag && after.closes == 1 && after.notices == 1 && !after.up && after.length == 100 && !after.panicked == !s.panicked
  {
    ReachableOk(s);
    MovesOn(s, g, 4, 4);
    Moves4(s, g);
    Moves4(Moves(s, g, 4), g);
    FullQueueHalf(s, g);
    NoticeHalf(Moves(s, g, 4), g);
  }

  lemma FullQueueHalf(s: State, g: Goroutine)
    requires Ok(s) && AtFullQueue(s, g) && s.holder == None
    ensures MoveOf(MoveOf(MoveOf(MoveOf(s, g), g), g), g)
            == s.(pcs := s.pcs[g := ClosingConnection], holder := Some(g), notices := 1)
    ensures !s.flag && s.notices == 0
  {}

  lemma NoticeHalf(s: State, g: Goroutine)
    requires PcOf(s, g) == ClosingConnection && s.closes == 0 && g in s.pcs
    ensures MoveOf(MoveOf(MoveOf(MoveOf(s, g), g), g), g)
            == s.(pcs := s.pcs[g := Outside], holder := None, flag := true, closes := 1, up := false)
  {}

  /** A close of an open subscriber, alone: no notice, the connection down, the channel closed once, the flag set. */
  lemma CloseAlone(s: State, g: Goroutine)
    requires Reachable(s) && s.holder == None && s.closes == 0 && PcOf(s, g) == Locking(Close)
    ensures var after := Moves(s, g, 6);
            && PcOf(after, g) == Outside && after.holder == None
            && after.flag && after.closes == 1 && after.notices == s.notices == 0 && !after.up && after.length == s.length
  {
    ReachableOk(s);
    MovesOn(s, g, 2, 4);
    TakesAndChecks(s, g, Close);
    Moves4(Moves(s, g, 2), g);
    NoticeHalf(Moves(s, g, 2), g);
  }

  lemma TakesAndChecks(s: State, g: Goroutine, call: Call)
    requires s.holder == None && PcOf(s, g) == Locking(call)
    ensures Moves(s, g, 2) == s.(pcs := s.pcs[g := AfterCheck(call, s.flag)], holder := Some(g))
  {
    assert Moves(MoveOf(s, g), g, 1) == Moves(MoveOf(MoveOf(s, g), g), g, 0);
  }

  /** On a closed subscriber every call, alone, comes back and changes nothing. */
  lemma ClosedRefusesAlone(s: State, g: Goroutine, call: Call)
    requires Reachable(s) && s.holder == None && s.flag && PcOf(s, g) == Locking(call)
    ensures Moves(s, g, 3) == s.(pcs := s.pcs[g := Outside])
  {
    MovesOn(s, g, 2, 1);
    TakesAndChecks(s, g, call);
    assert Moves(Moves(s, g, 2), g, 1) == Moves(MoveOf(Moves(s, g, 2), g), g, 0);
  }

  /** The write loop's receive makes room for one more send, and touches nothing else. */
  lemma ReceiveMakesRoom(s: State)
    requires Reachable(s) && s.length > 0
    ensures Step(s, Received) == s.(length := s.length - 1) && Step(s, Received).length < 100
  {
    ReachableOk(s);
  }

  /** A send to an open subscriber with room, alone, adds its frame to the queue and changes nothing else. */
  lemma SendAlone(s: State, g: Goroutine)
    requires Reachable(s) && s.holder == None && !s.flag && s.length < 100 && PcOf(s, g) == Locking(Send)
    ensures Moves(s, g, 4) == s.(pcs := s.pcs[g := Outside], length := s.length + 1)
  {
    ReachableOk(s);
    MovesOn(s, g, 2, 2);
    TakesAndChecks(s, g, Send);
    assert Moves(Moves(s, g, 2), g, 2) == Moves(MoveOf(Moves(s, g, 2), g), g, 1);
    assert Moves(MoveOf(Moves(s, g, 2), g), g, 1) == Moves(MoveOf(MoveOf(Moves(s, g, 2), g), g), g, 0);
  }
}
