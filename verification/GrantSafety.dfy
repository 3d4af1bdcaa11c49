/** What the timing of grants gives in every run: the arbiter answers nobody while a master is
    left, and a grant that arrives always makes a master. */
module GrantSafety {
  import opened Wrappers
  import opened Signals
  import opened PriorityBus
  import opened PriorityChain
  import opened BusStreams
  import opened ArbitrationCore
  import opened ChainSafety
  import opened MarkedBus
  import opened GrantTiming
  import opened GrantMoves
  import BusArbiter

  predicate IsSource(d: Node) { Active(PhaseOf(d)) || d.pc == RelBbsyRight }

  ghost function SourcesOf(devs: seq<Node>): (r: seq<bool>)
    ensures |r| == |devs|
  {
    seq(|devs|, i requires 0 <= i < |devs| => IsSource(devs[i]))
  }

  ghost predicate Timing(s: Sys, a: int) { TimingAt(Full(s), Abs(s), a, SourcesOf(s.devs)) }

  /** Sound, and with one and the same active device in both invariants. */
  ghost predicate Timed(s: Sys, a: int) { Sound(s) && InvAt(Abs(s), a) && Timing(s, a) }

  lemma MarksOf(s: Sys)
    ensures Marks(Full(s), Abs(s))
    ensures Sources(Abs(s), SourcesOf(s.devs))
  {
    Agree(s);
  }

  /** A step changes the place of at most one device. */
  lemma OneSource(s: Sys, t: Sys, i: nat)
    requires |t.devs| == |s.devs| && i < |s.devs|
    requires forall k :: 0 <= k < |s.devs| && k != i ==> t.devs[k].p == s.devs[k].p && t.devs[k].pc == s.devs[k].pc
    ensures SourcesOf(t.devs) == SourcesOf(s.devs)[i := IsSource(t.devs[i])]
  {
    forall k | 0 <= k < |s.devs| && k != i ensures IsSource(t.devs[k]) == IsSource(s.devs[k]) {
    }
  }

  lemma FireSource(s: Sys, i: nat, x: Micro, q: seq<Msg>)
    requires i < |s.devs|
    ensures SourcesOf(Fire(s, i, x, q).devs) == SourcesOf(s.devs)[i := IsSource(Node(x.p, x.pc, []))]
  {
    OneSource(s, Fire(s, i, x, q), i);
  }

  lemma SameSource(s: Sys, i: nat, b: bool)
    requires i < |s.devs| && IsSource(s.devs[i]) == b
    ensures SourcesOf(s.devs)[i := b] == SourcesOf(s.devs)
  {
  }

  // Reading

  lemma UpKeeps(s: Sys, i: nat, a: int)
    requires Timed(s, a) && Enabled(s, Read(i)) && s.devs[i].q[0].from != i - 1
    ensures InvAt(Abs(Step(s, Read(i))), a) && Timing(Step(s, Read(i)), a)
  {
    hide InvAt, TimingAt, Step, Receive, Sound;
    var t := Step(s, Read(i));
    assert Wired(s) && Traffic(s) by { SoundIs(s, i); }
    var m := s.devs[i].q[0];
    FullReadUp(s, i);
    MarksOf(t);
    UpSource(s, i);
    if LeftLetter(m) == [] {
      ReadPlain(s, i);
    } else {
      ReadFromRight(s, i);
      MoveLeftKeeps(Abs(s), a, i);
    }
    UpLetters(s, i);
    MoveLeftTiming(Full(s), Abs(s), Abs(t), a, SourcesOf(s.devs), i);
  }

  lemma SoundIs(s: Sys, i: nat)
    requires Sound(s) && i < |s.devs|
    ensures Wired(s) && Traffic(s) && Consistent(s.devs[i])
  {
  }

  lemma UpLetters(s: Sys, i: nat)
    requires Wired(s) && Traffic(s) && Enabled(s, Read(i)) && s.devs[i].q[0].from != i - 1
    requires Full(s).left[i] != [] && LeftMark(s.devs[i].q[0]) == [Full(s).left[i][0]]
    ensures Full(s).left[i][0] == Ask <==> LeftLetter(s.devs[i].q[0]) == []
    ensures Full(s).phase[i] != Leaving && i < Devices(Abs(s))
  {
  }

  lemma UpSource(s: Sys, i: nat)
    requires Wired(s) && Traffic(s) && Enabled(s, Read(i)) && s.devs[i].q[0].from != i - 1
    ensures SourcesOf(Step(s, Read(i)).devs) == SourcesOf(s.devs)
  {
    var d := s.devs[i];
    assert Deliverable(d.q[0], i, |s.devs|);
    var x := Receive(d.p, d.q[0]);
    FireSource(s, i, x, d.q[1..]);
    SameSource(s, i, IsSource(Node(x.p, x.pc, [])));
  }

  predicate Arrives(d: Node) { d.q != [] && d.q[0].sig == BG && !d.q[0].asserted && d.p.sackAsserted }

  lemma DownSource(s: Sys, i: nat)
    requires Wired(s) && Traffic(s) && Enabled(s, Read(i)) && s.devs[i].q[0].from == i - 1
    ensures var d := s.devs[i];
            SourcesOf(Step(s, Read(i)).devs) ==
            if Arrives(d) && !d.p.bbsyAsserted then SourcesOf(s.devs)[i := true] else SourcesOf(s.devs)
  {
    var d := s.devs[i];
    assert Deliverable(d.q[0], i, |s.devs|);
    var x := Receive(d.p, d.q[0]);
    FireSource(s, i, x, d.q[1..]);
    if !(Arrives(d) && !d.p.bbsyAsserted) {
      SameSource(s, i, IsSource(Node(x.p, x.pc, [])));
    }
  }

  /** The letters on both buses when the device reads from the arbiter's side. */
  lemma DownLetters(s: Sys, i: nat)
    requires Wired(s) && Enabled(s, Read(i)) && s.devs[i].q[0].from == i - 1
    ensures var m := s.devs[i].q[0]; var f, c := Full(s), Abs(s);
            && i < Devices(c) && Devices(f) == Devices(c) && c.phase[i] != Leaving && c.phase[i] != Tail
            && f.phase == c.phase && f.busy == c.busy && c.busy[i] == s.devs[i].p.bbsyAsserted
            && (RightMark(m) != [] ==> f.right[i] != [] && f.right[i][0] == RightMark(m)[0])
            && (RightLetter(m) != [] ==> c.right[i] != [] && c.right[i][0] == RightLetter(m)[0])
  {
    var d := s.devs[i];
    var m := d.q[0];
    assert Full(s).right[i] == RightMark(m) + RightMarks(d.q[1..], i);
    assert Abs(s).right[i] == RightLetter(m) + RightWord(d.q[1..], i);
  }

  /** A BG-negated that a device with SACK has to read finds it free of BBSY. */
  lemma ArrivesFree(s: Sys, i: nat, a: int)
    requires Timed(s, a) && Enabled(s, Read(i)) && Arrives(s.devs[i])
    ensures s.devs[i].q[0].from == i - 1 && !s.devs[i].p.bbsyAsserted
  {
    hide InvAt, TimingAt, Step;
    assert Deliverable(s.devs[i].q[0], i, |s.devs|);
    DownLetters(s, i);
    GrantFindsFree(Full(s), Abs(s), a, SourcesOf(s.devs), i);
  }

  lemma TakesKeeps(s: Sys, i: nat, a: int)
    requires Timed(s, a) && Enabled(s, Read(i)) && Arrives(s.devs[i])
    ensures InvAt(Abs(Step(s, Read(i))), i) && Timing(Step(s, Read(i)), i)
  {
    hide InvAt, TimingAt, Step, Receive, Sound;
    SoundIs(s, i);
    ArrivesFree(s, i, a);
    var t := Step(s, Read(i));
    DownLetters(s, i);
    FullReadDown(s, i);
    ReadFromLeft(s, i);
    DownSource(s, i);
    MarksOf(t);
    TakeGrantKeeps(Abs(s), a, i);
    TakeGrantTiming(Full(s), Abs(s), a, SourcesOf(s.devs), i);
  }

  lemma DownKeeps(s: Sys, i: nat, a: int)
    requires Timed(s, a) && Enabled(s, Read(i)) && s.devs[i].q[0].from == i - 1 && !Arrives(s.devs[i])
    ensures InvAt(Abs(Step(s, Read(i))), a) && Timing(Step(s, Read(i)), a)
  {
    hide InvAt, TimingAt, Step, Receive, Sound;
    SoundIs(s, i);
    var t, m := Step(s, Read(i)), s.devs[i].q[0];
    DownLetters(s, i);
    FullReadDown(s, i);
    DownSource(s, i);
    MarksOf(t);
    if RightLetter(m) == [] {
      ReadPlain(s, i);
      PlainDownKeeps(s, t, i, a);
    } else {
      ReadFromLeft(s, i);
      MoveRightKeeps(Abs(s), a, i);
      MoveRightTiming(Full(s), Abs(s), Abs(t), a, SourcesOf(s.devs), i);
    }
  }

  lemma PlainDownKeeps(s: Sys, t: Sys, i: nat, a: int)
    requires InvAt(Abs(s), a) && Timing(s, a) && Enabled(s, Read(i)) && i < Devices(Full(s)) == Devices(Abs(s))
    requires RightLetter(s.devs[i].q[0]) == [] && Abs(t) == Abs(s) && SourcesOf(t.devs) == SourcesOf(s.devs)
    requires RightMark(s.devs[i].q[0]) != [] ==> Full(s).right[i] != [] && Full(s).right[i][0] == Ask
    requires Shape(Full(s)) && Abs(s).phase[i] != Leaving
    requires Full(t) == ReadMove(Full(s), i, s.devs[i].p, s.devs[i].q[0])
    requires Marks(Full(t), Abs(t))
    ensures Timing(t, a)
  {
    hide InvAt, TimingAt, Abs, Full, Receive;
    var m := s.devs[i].q[0];
    if RightMark(m) != [] {
      if s.devs[i].p.brIssued {
        AcknowledgeTiming(Full(s), Abs(s), a, SourcesOf(s.devs), i);
      } else {
        MoveRightTiming(Full(s), Abs(s), Abs(t), a, SourcesOf(s.devs), i);
      }
    }
  }

  // The other steps

  lemma RequestKeeps(s: Sys, i: nat, a: int)
    requires Timed(s, a) && Enabled(s, StartRequest(i))
    ensures InvAt(Abs(Step(s, StartRequest(i))), a) && Timing(Step(s, StartRequest(i)), a)
  {
    hide InvAt, TimingAt, Sound;
    SoundIs(s, i);
    var t := Step(s, StartRequest(i));
    var x := Request(s.devs[i].p);
    RequestKeepsOrder(s, i);
    FullRequest(s, i);
    FireSource(s, i, x, s.devs[i].q);
    SameSource(s, i, IsSource(Node(x.p, x.pc, [])));
    MarksOf(t);
    if !s.devs[i].p.bbsyAsserted {
      RequestTiming(Full(s), Abs(s), a, SourcesOf(s.devs), i);
    }
  }

  lemma ActiveIs(c: Core, a: int, i: nat)
    requires InvAt(c, a) && i < Devices(c) && Active(c.phase[i])
    ensures a == i
  {
  }

  lemma ReleaseKeeps(s: Sys, i: nat, a: int)
    requires Timed(s, a) && Enabled(s, StartRelease(i))
    ensures InvAt(Abs(Step(s, StartRelease(i))), a) && Timing(Step(s, StartRelease(i)), a)
  {
    hide InvAt, TimingAt, Sound;
    SoundIs(s, i);
    var t := Step(s, StartRelease(i));
    var x := Release(s.devs[i].p);
    ReleaseMove(s, i);
    FullRelease(s, i);
    FireSource(s, i, x, s.devs[i].q);
    SameSource(s, i, IsSource(Node(x.p, x.pc, [])));
    MarksOf(t);
    ActiveIs(Abs(s), a, i);
    StartReleaseKeeps(Abs(s), a, i);
    ReleaseTiming(Full(s), Abs(s), SourcesOf(s.devs), i);
  }

  lemma GoOnSource(s: Sys, i: nat)
    requires Enabled(s, GoOn(i)) && Consistent(s.devs[i])
    ensures SourcesOf(Step(s, GoOn(i)).devs) ==
            if s.devs[i].pc == RelBbsyRight then SourcesOf(s.devs)[i := false] else SourcesOf(s.devs)
  {
    var x := Continue(s.devs[i].p, s.devs[i].pc);
    FireSource(s, i, x, s.devs[i].q);
    if s.devs[i].pc != RelBbsyRight {
      SameSource(s, i, IsSource(Node(x.p, x.pc, [])));
    }
  }

  /** What both buses and the sources look like after going on. */
  lemma GoOnLooks(s: Sys, i: nat)
    requires Sound(s) && Enabled(s, GoOn(i))
    ensures var t, pc := Step(s, GoOn(i)), s.devs[i].pc;
            && i < Devices(Abs(s)) && Abs(s).phase[i] == PhaseOf(s.devs[i])
            && Abs(t) == GoOnMove(Abs(s), i, pc)
            && Devices(Full(s)) == Devices(Abs(s)) && Full(t) == GoOnMove(Full(s), i, pc)
            && SourcesOf(t.devs) == (if pc == RelBbsyRight then SourcesOf(s.devs)[i := false] else SourcesOf(s.devs))
            && SourcesOf(s.devs)[i] == IsSource(s.devs[i]) && (pc == RelBbsyClear ==> !SourcesOf(t.devs)[i])
            && Marks(Full(s), Abs(s)) && Marks(Full(t), Abs(t)) && Sources(Abs(t), SourcesOf(t.devs))
  {
    hide Step, Continue, GoOnMove;
    SoundIs(s, i);
    GoOnIsMove(s, i);
    FullGoOn(s, i);
    GoOnSource(s, i);
    MarksOf(s);
    MarksOf(Step(s, GoOn(i)));
  }

  lemma GoOnKeeps(s: Sys, i: nat, a: int) returns (b: int)
    requires Timed(s, a) && Enabled(s, GoOn(i))
    ensures InvAt(Abs(Step(s, GoOn(i))), b) && Timing(Step(s, GoOn(i)), b)
  {
    hide InvAt, TimingAt, Sound, Step, Full, Abs, SourcesOf, Marks, Sources;
    GoOnLooks(s, i);
    b := a;
    match s.devs[i].pc {
      case GrantRight =>
        ActiveIs(Abs(s), a, i);
        SendBusyRightKeeps(Abs(s), a, i);
        SendOnTiming(Full(s), Abs(s), SourcesOf(s.devs), i);
      case GrantSet =>
        SetBusyKeeps(Abs(s), a, i);
        OwnFlags(s, i, a);
      case RelBbsyLeft =>
        ActiveIs(Abs(s), a, i);
        SendFreeLeftKeeps(Abs(s), a, i);
        LeaveTiming(Full(s), Abs(s), SourcesOf(s.devs), i);
        b := -1;
      case RelBbsyRight =>
        SendFreeRightKeeps(Abs(s), a, i);
        SendOffTiming(Full(s), Abs(s), a, SourcesOf(s.devs), i);
      case RelBbsyClear =>
        EndReleaseKeeps(Abs(s), a, i);
        OwnFlags(s, i, a);
      case _ =>
    }
  }

  lemma OwnFlags(s: Sys, i: nat, a: int)
    requires Timed(s, a) && Enabled(s, GoOn(i)) && (s.devs[i].pc == GrantSet || s.devs[i].pc == RelBbsyClear)
    ensures Timing(Step(s, GoOn(i)), a)
  {
    hide InvAt, TimingAt, Sound, Step, SourcesOf, Full, Abs, Sources;
    GoOnLooks(s, i);
    var t := Step(s, GoOn(i));
    if s.devs[i].pc == RelBbsyClear {
      NotActive(Abs(s), a, i);
    }
    FlagsTiming(Full(s), Full(t), Abs(s), Abs(t), a, SourcesOf(s.devs), i);
  }

  lemma NotActive(c: Core, a: int, i: nat)
    requires InvAt(c, a) && i < Devices(c) && !Active(c.phase[i])
    ensures a != i
  {
  }

  lemma ArbLetters(s: Sys)
    requires Traffic(s) && Enabled(s, ArbRead)
    ensures var r := BusArbiter.Receive(s.arb, s.arbQ[0]); var f, c := Full(s), Abs(s);
            var d, mark := Abs(Step(s, ArbRead)), AnswerMark(r.out);
            && Devices(c) > 0
            && (mark == [] || ((mark == [Ask] || mark == [GrantOff]) && f.idle && LeftMark(s.arbQ[0]) == [Ask]))
            && d.left == c.left && d.busy == c.busy && d.phase == c.phase
            && d.right == (if mark == [GrantOff] then c.right[0 := c.right[0] + [GrantOff]] else c.right)
  {
    hide LeftWord, RightWord;
    assert Deliverable(s.arbQ[0], ARBITER, |s.devs|);
    ArbIsMove(s);
  }

  lemma ArbKeeps(s: Sys, a: int)
    requires Timed(s, a) && Enabled(s, ArbRead)
    ensures InvAt(Abs(Step(s, ArbRead)), a) && Timing(Step(s, ArbRead), a)
  {
    hide InvAt, TimingAt, Sound, ArbAnswer;
    assert Traffic(s) by {
      SoundTraffic(s);
    }
    var t := Step(s, ArbRead);
    var r := BusArbiter.Receive(s.arb, s.arbQ[0]);
    ArbKeepsOrder(s, a);
    FullArb(s);
    ArbLetters(s);
    MarksOf(t);
    ArbTiming(Full(s), Abs(s), Abs(t), a, SourcesOf(s.devs), !r.arb.sack, AnswerMark(r.out));
    ArbSource(s);
  }

  lemma SoundTraffic(s: Sys)
    requires Sound(s)
    ensures Traffic(s)
  {
  }

  lemma ArbSource(s: Sys)
    requires Enabled(s, ArbRead)
    ensures SourcesOf(Step(s, ArbRead).devs) == SourcesOf(s.devs)
  {
    var t := Step(s, ArbRead);
    if s.devs != [] {
      OneSource(s, t, 0);
      SameSource(s, 0, IsSource(t.devs[0]));
    }
  }

  lemma MainKeeps(s: Sys, i: nat, p: Pr, a: int)
    requires Timed(s, a) && i < |s.devs| && p == s.devs[i].p.(reqMaster := p.reqMaster, relMaster := p.relMaster)
    ensures var t := s.(devs := s.devs[i := s.devs[i].(p := p)]); InvAt(Abs(t), a) && Timing(t, a)
  {
    hide InvAt, TimingAt, Sound;
    var t := s.(devs := s.devs[i := s.devs[i].(p := p)]);
    MainKeepsOrder(s, i, p);
    FullMain(s, i, p);
    OneSource(s, t, i);
    SameSource(s, i, IsSource(t.devs[i]));
  }

  lemma ReadKeeps(s: Sys, i: nat, a: int) returns (b: int)
    requires Timed(s, a) && Enabled(s, Read(i))
    ensures InvAt(Abs(Step(s, Read(i))), b) && Timing(Step(s, Read(i)), b)
  {
    hide InvAt, Timing, Step;
    b := a;
    if Arrives(s.devs[i]) {
      TakesKeeps(s, i, a);
      b := i;
    } else if s.devs[i].q[0].from == i - 1 {
      DownKeeps(s, i, a);
    } else {
      UpKeeps(s, i, a);
    }
  }

  lemma TimedStep(s: Sys, e: Event, a: int) returns (b: int)
    requires Timed(s, a) && Enabled(s, e)
    ensures Timed(Step(s, e), b)
  {
    hide InvAt, Timing, Receive, Continue;
    b := a;
    match e {
      case MainRequest(i) => MainKeeps(s, i, s.devs[i].p.(reqMaster := true), a);
      case MainRelease(i) => MainKeeps(s, i, s.devs[i].p.(relMaster := true), a);
      case StartRequest(i) => RequestKeeps(s, i, a);
      case StartRelease(i) => ReleaseKeeps(s, i, a);
      case Read(i) =>
        b := ReadKeeps(s, i, a);
        NotMasterReads(s, i, a);
      case GoOn(i) => b := GoOnKeeps(s, i, a);
      case ArbRead => ArbKeeps(s, a);
    }
    StepKeepsSound(s, e);
  }

  lemma NotMasterReads(s: Sys, i: nat, a: int)
    requires Timed(s, a) && Enabled(s, Read(i))
    ensures s.devs[i].q[0].sig == BBSY ==> !s.devs[i].p.isMaster
  {
    hide Timing, InvAt, Step;
    var b := ReadKeepsOrder(s, i, a);
  }

  lemma TimedStart(n: nat)
    ensures Timed(Init(n), -1)
  {
    hide InvAt;
    var s := Init(n);
    var c, f := Abs(s), Full(s);
    InitKeeps(n);
    assert forall k :: 0 <= k < n ==> c.left[k] == [] && c.right[k] == [] && c.phase[k] == Quiet;
    assert forall k :: 0 <= k < n ==> f.left[k] == [] && f.right[k] == [];
    EmptyCore(c);
    MarksOf(s);
    EmptyTiming(f, c, SourcesOf(s.devs));
  }

  lemma EmptyTiming(f: Core, c: Core, src: seq<bool>)
    requires Marks(f, c) && Sources(c, src) && f.arb == [] && c.arb == []
    requires forall k :: 0 <= k < Devices(c) ==> c.left[k] == [] && c.right[k] == [] && !c.busy[k]
    requires forall k :: 0 <= k < Devices(f) ==> f.left[k] == [] && f.right[k] == []
    ensures TimingAt(f, c, -1, src)
  {
    hide Leftward, Rightward;
    LeftEmpty(f.left, 0);
    LeftEmpty(c.left, 0);
    EmptyRight(f.right, Devices(f) - 1);
    forall x | 0 <= x < Devices(c) ensures !EndsOn(Rightward(c.right, x)) {
      EmptyRight(c.right, x);
    }
  }

  lemma {:induction false} TimedRun(s: Sys, es: seq<Event>, t: Sys, a: int) returns (b: int)
    requires Timed(s, a) && IsRun(s, es, t)
    ensures Timed(t, b)
    decreases |es|
  {
    hide Timed;
    b := a;
    if es != [] {
      b := TimedStep(s, es[0], a);
      b := TimedRun(Step(s, es[0]), es[1..], t, b);
    }
  }

  // In every run

  /** A message that signals the main thread, a BG-negated that reaches a device with SACK, never
      finds it believing the bus busy: it is never lost, and wakes a thread whose device
      becomes master. */
  lemma GrantsAlwaysTake(n: nat, es: seq<Event>, t: Sys, i: nat)
    requires IsRun(Init(n), es, t) && Enabled(t, Read(i)) && Wakes(t.devs[i].p, t.devs[i].q[0])
    ensures !t.devs[i].p.bbsyAsserted
    ensures Finish(Receive(t.devs[i].p, t.devs[i].q[0])).p.isMaster
  {
    hide Timed;
    TimedStart(n);
    var a := TimedRun(Init(n), es, t, -1);
    ArrivesFree(t, i, a);
    FinishGrant(t.devs[i].p, Write(t.devs[i].p, Left, BBSY, true));
  }

  /** So the main thread is signalled exactly when its device becomes master. */
  lemma WokenExactly(n: nat, es: seq<Event>, t: Sys, i: nat)
    requires IsRun(Init(n), es, t) && Enabled(t, Read(i)) && !t.devs[i].p.isMaster
    ensures var p, m := t.devs[i].p, t.devs[i].q[0];
            WakesOf(p, m) == if Finish(Receive(p, m)).p.isMaster then [Mastered] else []
  {
    var p, m := t.devs[i].p, t.devs[i].q[0];
    if Wakes(p, m) {
      GrantsAlwaysTake(n, es, t, i);
    } else {
      var x := Receive(p, m);
      assert x.pc == Idle && x.p.isMaster == p.isMaster;
      assert Finish(x).p == x.p;
    }
  }

  /** While any device holds the bus or has BBSY yet to negate towards the arbiter, whatever
      single write it stands before, the arbiter answers nothing. */
  lemma NoGrantWhileMaster(n: nat, es: seq<Event>, t: Sys, i: nat)
    requires IsRun(Init(n), es, t) && t.arbQ != [] && i < |t.devs|
    requires t.devs[i].p.isMaster || Active(PhaseOf(t.devs[i]))
    ensures BusArbiter.Receive(t.arb, t.arbQ[0]).out == None
  {
    hide Timed;
    TimedStart(n);
    var a := TimedRun(Init(n), es, t, -1);
    AnswersNone(t, i, a);
  }

  lemma AnswersNone(t: Sys, i: nat, a: int)
    requires Timed(t, a) && t.arbQ != [] && i < |t.devs| && (t.devs[i].p.isMaster || Active(PhaseOf(t.devs[i])))
    ensures BusArbiter.Receive(t.arb, t.arbQ[0]).out == None
  {
    hide InvAt, Leftward, Rightward, BusyHasCause, RoadTight;
    assert Consistent(t.devs[i]);
    assert Abs(t).phase[i] == PhaseOf(t.devs[i]);
    ActiveIs(Abs(t), a, i);
    FullArb(t);
    ArbLetters(t);
    if AnswerMark(BusArbiter.Receive(t.arb, t.arbQ[0]).out) != [] {
      AnswersAlone(Full(t), Abs(t), a);
    }
    assert Deliverable(t.arbQ[0], ARBITER, |t.devs|);
  }
}
