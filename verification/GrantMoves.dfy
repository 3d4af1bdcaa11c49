/** The whole timing invariant over one move at a time. */
module GrantMoves {
  import opened BusStreams
  import opened ArbitrationCore
  import opened MarkedBus
  import opened GrantTiming
  import opened GrantSteps

  /** What does not change when only the words to the left change on the marked bus. */
  lemma LeftOnly(f: Core, g: Core, c: Core, a: int, src: seq<bool>)
    requires TimingAt(f, c, a, src) && Marks(g, c) && g.right == f.right && RoadTight(g, a)
    ensures TimingAt(g, c, a, src)
  {
    hide RoadTight, BusyHasCause, EndsFree, GrantOffAlone, Marks, Sources, Leftward, Rightward;
    assert Shape(g) && Devices(g) == Devices(f) by {
      MarksShape(f, c);
      MarksShape(g, c);
    }
  }

  lemma MarksShape(f: Core, c: Core)
    requires Marks(f, c)
    ensures Shape(f) && Shape(c) && Devices(f) == Devices(c)
    ensures f.phase == c.phase && f.busy == c.busy && f.idle == c.idle
  {
  }

  /** A request written by a device that does not see the bus busy. */
  lemma RequestTiming(f: Core, c: Core, a: int, src: seq<bool>, i: nat)
    requires InvAt(c, a) && TimingAt(f, c, a, src) && i < Devices(c) && c.phase[i] != Leaving && !c.busy[i]
    requires Marks(PushLeft(f, i, Ask), c)
    ensures TimingAt(PushLeft(f, i, Ask), c, a, src)
  {
    FreeNotNext(f, c, a, i);
    PushRoad(f, a, i, Ask);
    LeftOnly(f, PushLeft(f, i, Ask), c, a, src);
  }

  lemma FreeNotNext(f: Core, c: Core, a: int, i: nat)
    requires InvAt(c, a) && Marks(f, c) && i < Devices(c) && !c.busy[i]
    ensures var v := Leftward(Ahead(f, a).left, i); v != [] ==> v[0] != BusyOff
  {
    hide Leftward, Rightward, Count, Total, Cyclic, GrantLast;
    var v := Leftward(Ahead(f, a).left, i);
    if v != [] && v[0] == BusyOff {
      NextIsFree(f, c, a, i);
    }
  }

  lemma GrantNotFree(f: Core, c: Core, a: int, i: nat)
    requires Marks(f, c) && -1 <= a <= i < Devices(c)
    requires Leftward(c.left, i) == [] && (a >= 0 ==> Leftward(c.left, a) == [])
    ensures var v := Leftward(Ahead(f, a).left, i); v != [] ==> v[0] != BusyOff
  {
    hide Leftward;
    var v := Leftward(Ahead(f, a).left, i);
    if v != [] && v[0] == BusyOff {
      NextIsFree(f, c, a, i);
    }
  }

  /** A grant taken: SACK goes up. */
  lemma AcknowledgeTiming(f: Core, c: Core, a: int, src: seq<bool>, i: nat)
    requires InvAt(c, a) && TimingAt(f, c, a, src) && i < Devices(c) && c.phase[i] != Leaving
    requires f.right[i] != [] && f.right[i][0] == Ask && Marks(PushLeft(DropRight(f, i), i, Ask), c)
    ensures TimingAt(PushLeft(DropRight(f, i), i, Ask), c, a, src)
  {
    hide Rightward, BusyHasCause, EndsFree, GrantOffAlone, Sources, Leftward;
    var e := DropRight(f, i);
    assert Ask in f.right[i];
    ActiveEmpty(c, a);
    GrantNotFree(f, c, a, i);
    PushRoad(f, a, i, Ask);
    SameRoad(PushLeft(f, i, Ask), PushLeft(e, i, Ask), a);
    DropRightLast(f, i);
    GrantsFewer(f, e, c, a);
    assert PushLeft(e, i, Ask).right == e.right;
  }

  lemma ActiveEmpty(c: Core, a: int)
    requires InvAt(c, a)
    ensures a >= 0 ==> Leftward(c.left, a) == []
  {
  }

  lemma GrantsFewer(f: Core, e: Core, c: Core, a: int)
    requires Shape(f) && Shape(e) && Shape(c) && Devices(e) == Devices(f) == Devices(c) && GrantsFree(f, c, a)
    requires forall k :: 0 <= k < Devices(f) && Ask in e.right[k] ==> Ask in f.right[k]
    ensures GrantsFree(e, c, a)
  {
  }

  /** Passing a letter to the left, a request or a master's. */
  lemma MoveLeftTiming(f: Core, c: Core, d: Core, a: int, src: seq<bool>, i: nat)
    requires InvAt(c, a) && TimingAt(f, c, a, src) && i < Devices(c) && f.left[i] != [] && f.phase[i] != Leaving
    requires f.left[i][0] != Ask ==> c.left[i] != []
    requires d == if f.left[i][0] == Ask then c else MoveLeft(c, i)
    requires Marks(MoveLeft(f, i), d)
    ensures TimingAt(MoveLeft(f, i), d, a, src)
  {
    hide Rightward, BusyHasCause, EndsFree, Leftward, Cyclic, Count, Total;
    MoveLeftRoad(f, a, i);
    if f.left[i][0] == Ask {
      LeftOnly(f, MoveLeft(f, i), c, a, src);
    } else {
      MoveLeftCause(c, a, src, i);
      MoveLeftEnds(c, a, i);
      MoveLeftFrees(f, c, a, i);
    }
  }

  lemma MoveLeftFrees(f: Core, c: Core, a: int, i: nat)
    requires Shape(f) && Shape(c) && Devices(f) == Devices(c) && i < Devices(c) && c.left[i] != [] && f.left[i] != []
    requires GrantsFree(f, c, a) && GrantOffAlone(c, a)
    ensures GrantsFree(MoveLeft(f, i), MoveLeft(c, i), a) && GrantOffAlone(MoveLeft(c, i), a)
  {
    hide Leftward;
    forall x: nat ensures Leftward(c.left, x) == [] ==> Leftward(MoveLeft(c, i).left, x) == [] {
      MoveLeftWords(c, i, x);
    }
  }

  /** Passing a letter to the right, a grant or a BBSY or BG-negated. */
  lemma MoveRightTiming(f: Core, c: Core, d: Core, a: int, src: seq<bool>, i: nat)
    requires TimingAt(f, c, a, src) && i < Devices(c) && f.right[i] != [] && (f.right[i][0] != Ask ==> c.right[i] != [])
    requires f.right[i][0] != Ask ==> c.right[i][0] == f.right[i][0]
    requires d == if f.right[i][0] == Ask then c else MoveRight(c, i)
    requires Marks(MoveRight(f, i), d)
    ensures TimingAt(MoveRight(f, i), d, a, src)
  {
    hide Rightward, BusyHasCause, Leftward;
    var g := MoveRight(f, i);
    assert g.left == f.left && g.arb == f.arb && g.phase == f.phase;
    SameRoad(f, g, a);
    MoveRightLast(f, i);
    GrantsGoOn(f, c, a, i);
    if f.right[i][0] != Ask {
      assert d.left == c.left && d.phase == c.phase;
      MoveRightCause(c, a, src, i);
      SameGrants(g, c, d, a);
      GrantOffGoesOn(c, a, i);
    }
  }

  lemma SameGrants(g: Core, c: Core, d: Core, a: int)
    requires Shape(g) && Shape(c) && Shape(d) && Devices(g) == Devices(c) == Devices(d) && d.left == c.left
    requires GrantsFree(g, c, a)
    ensures GrantsFree(g, d, a)
  {
  }

  lemma GrantsGoOn(f: Core, c: Core, a: int, i: nat)
    requires Shape(f) && Shape(c) && Devices(f) == Devices(c) && i < Devices(c)
    requires f.right[i] != [] && GrantsFree(f, c, a)
    ensures GrantsFree(MoveRight(f, i), c, a)
  {
    hide Leftward;
    var g := MoveRight(f, i);
    forall k | 0 <= k < Devices(f) && Ask in g.right[k] ensures Leftward(c.left, k) == [] && a <= k {
      if k == i + 1 {
        var p := LeftSuffix(c.left, i, i + 1);
        assert Ask in f.right[k] || Ask in f.right[i];
      } else {
        assert Ask in f.right[k];
      }
    }
  }

  lemma GrantOffGoesOn(c: Core, a: int, i: nat)
    requires Shape(c) && i < Devices(c) && c.right[i] != [] && GrantOffAlone(c, a)
    ensures GrantOffAlone(MoveRight(c, i), a)
  {
    hide Leftward;
    var d := MoveRight(c, i);
    forall k | 0 <= k < Devices(c) && GrantOff in d.right[k] ensures a == -1 && Leftward(d.left, 0) == [] {
      assert GrantOff in c.right[k] || GrantOff in c.right[i];
    }
  }

  /** The BG-negated taken: a device becomes the active one. */
  lemma TakeGrantTiming(f: Core, c: Core, a: int, src: seq<bool>, i: nat)
    requires InvAt(c, a) && TimingAt(f, c, a, src) && i < Devices(c) && (c.phase[i] == Quiet || c.phase[i] == Hold)
    requires f.right[i] != [] && f.right[i][0] == GrantOff
    requires c.right[i] != [] && c.right[i][0] == GrantOff && !c.busy[i]
    requires Marks(TakeGrant(f, i), TakeGrant(c, i))
    ensures TimingAt(TakeGrant(f, i), TakeGrant(c, i), i, src[i := true])
  {
    hide InvAt, Rightward, Leftward, BusyHasCause, RoadTight, GrantOffLast, GrantsFree, GrantOffAlone,
         Marks, TailsClear;
    InvSays(c, a);
    MarksShape(f, c);
    GrantOffSays(c, a, i);
    TakeGrantKeeps(c, a, i);
    GrantIsLast(c, i);
    NoSourceBelow(c, a, src, i);
    TakeGrantCause(c, src, i);
    TakeGrantRoad(f, c, i);
    TakeGrantFrees(f, c, i);
    NoMoreGrantOff(c, a, i);
  }

  lemma NoMoreGrantOff(c: Core, a: int, i: nat)
    requires InvAt(c, a) && a == -1 && i < Devices(c) && c.right[i] != [] && c.right[i][0] == GrantOff
    ensures GrantOffAlone(TakeGrant(c, i), i)
  {
    hide Leftward, Rightward, Cyclic, Count, Total;
    OnlyGrant(c, DropRight(c, i), i);
    assert TakeGrant(c, i).right == DropRight(c, i).right;
  }

  lemma TakeGrantRoad(f: Core, c: Core, i: nat)
    requires Marks(f, c) && i < Devices(f) && f.right[i] != [] && RoadTight(f, -1) && Leftward(c.left, 0) == []
    ensures RoadTight(TakeGrant(f, i), i)
  {
    hide Leftward;
    var p := LeftSuffix(c.left, 0, i);
    NoFreeNext(f, c, i);
    RoadIs(f, i);
    RoadPush(f, i, BusyOn);
    TightInsert(Upto(f, i), BusyOn, Leftward(f.left, i));
    var d, e := TakeGrant(f, i), PushLeft(f, i, BusyOn);
    assert d.left == e.left && d.arb == e.arb;
  }

  lemma TakeGrantFrees(f: Core, c: Core, i: nat)
    requires Marks(f, c) && i < Devices(f) && f.right[i] != [] && f.right[i][0] == GrantOff && GrantOffLast(f)
    requires c.right[i] != [] && Leftward(c.left, 0) == []
    ensures GrantsFree(TakeGrant(f, i), TakeGrant(c, i), i) && GrantOffLast(TakeGrant(f, i))
  {
    hide Leftward, Rightward;
    var g, d := TakeGrant(f, i), TakeGrant(c, i);
    DropRightLast(f, i);
    assert g.right == DropRight(f, i).right;
    GrantIsLast(f, i);
    forall k | 0 <= k < Devices(f) && Ask in g.right[k] ensures Leftward(d.left, k) == [] && i <= k {
      assert k > i;
      var p := LeftSuffix(c.left, 0, k);
      var q := LeftSuffix(c.left, 0, i);
      PushLeftWords(DropRight(c, i).(phase := c.phase[i := Hold]), i, BusyOn, k);
    }
  }

  /** The arbiter reads, and answers with a grant, a BG-negated or nothing. */
  lemma ArbTiming(f: Core, c: Core, d: Core, a: int, src: seq<bool>, idle: bool, mark: seq<Letter>)
    requires InvAt(c, a) && TimingAt(f, c, a, src) && f.arb != [] && Devices(c) > 0
    requires mark == [] || ((mark == [Ask] || mark == [GrantOff]) && f.idle && f.arb[0] == Ask)
    requires d.left == c.left && d.busy == c.busy && d.phase == c.phase
    requires d.right == if mark == [GrantOff] then c.right[0 := c.right[0] + [GrantOff]] else c.right
    requires Marks(ArbAnswer(f, idle, mark), d)
    ensures TimingAt(ArbAnswer(f, idle, mark), d, a, src)
  {
    hide Rightward, BusyHasCause, Leftward, Cyclic, Count, Total;
    var g := ArbAnswer(f, idle, mark);
    PopRoad(f, g, a);
    if mark == [] {
      assert g.right == f.right by { assert f.right[0] + [] == f.right[0]; }
      SameCause(c, d, a, src);
    } else {
      AnswersAlone(f, c, a);
      TokenPlaces(c, a);
      AnswerLast(f, c, mark[0]);
      AnswerGrants(f, g, c, mark, a);
      if mark == [GrantOff] {
        AnswerCause(c, a, src);
        SameCause(c.(right := d.right), d, a, src);
      } else {
        SameCause(c, d, a, src);
      }
    }
  }

  lemma SameCause(c: Core, d: Core, a: int, src: seq<bool>)
    requires Shape(c) && Shape(d) && -1 <= a < Devices(c) && d.left == c.left && d.right == c.right && d.busy == c.busy
    requires d.phase == c.phase && BusyHasCause(c, a, src)
    ensures BusyHasCause(d, a, src)
  {
    hide Leftward, Rightward, EndsOn;
    forall x: nat | x < Devices(c) ensures Coming(d, a, x) == Coming(c, a, x) {
    }
  }

  lemma AnswerGrants(f: Core, g: Core, c: Core, mark: seq<Letter>, a: int)
    requires Shape(f) && Shape(g) && Shape(c) && Devices(f) == Devices(g) == Devices(c) > 0 && GrantsFree(f, c, a)
    requires a == -1 && Leftward(c.left, 0) == [] && g.right == f.right[0 := f.right[0] + mark]
    ensures GrantsFree(g, c, a)
  {
    hide Leftward;
    forall k | 0 <= k < Devices(f) && Ask in g.right[k] ensures Leftward(c.left, k) == [] {
      var p := LeftSuffix(c.left, 0, k);
    }
  }

  /** The master starts to release. */
  lemma ReleaseTiming(f: Core, c: Core, src: seq<bool>, i: nat)
    requires InvAt(c, i) && TimingAt(f, c, i, src) && c.phase[i] == Hold && src[i]
    requires Marks(PushLeft(SetPhase(f, i, Leaving), i, SackOff), PushLeft(SetPhase(c, i, Leaving), i, SackOff))
    ensures TimingAt(PushLeft(SetPhase(f, i, Leaving), i, SackOff),
                     PushLeft(SetPhase(c, i, Leaving), i, SackOff), i, src)
  {
    hide Rightward, Leftward, BusyHasCause, Cyclic, Count, Total, RoadTight;
    ActiveEmpty(c, i);
    MarksShape(f, c);
    ReleaseRoad(f, c, i);
    ReleaseCause(c, src, i);
    PushedFrees(f, c, i, Leaving, SackOff);
  }

  /** What the active device writes up changes nothing for the grants, all further out. */
  lemma PushedFrees(f: Core, c: Core, i: nat, ph: Phase, l: Letter)
    requires Shape(f) && Shape(c) && Devices(f) == Devices(c) && i < Devices(c)
    requires GrantsFree(f, c, i) && GrantOffAlone(c, i)
    requires Leftward(c.left, i) == []
    ensures GrantsFree(PushLeft(SetPhase(f, i, ph), i, l), PushLeft(SetPhase(c, i, ph), i, l), i)
    ensures forall k :: 0 <= k < Devices(c) ==> GrantOff !in PushLeft(SetPhase(c, i, ph), i, l).right[k]
  {
    hide Leftward;
    var d := PushLeft(SetPhase(c, i, ph), i, l);
    forall k: nat | k >= i ensures Leftward(d.left, k) == Leftward(c.left, k) {
      PushLeftWords(SetPhase(c, i, ph), i, l, k);
    }
    forall k | 0 <= k < Devices(c) ensures GrantOff !in d.right[k] {
      assert GrantOff !in c.right[k];
    }
  }

  /** Its BBSY-negated leaves to the left: it is no longer active. */
  lemma LeaveTiming(f: Core, c: Core, src: seq<bool>, i: nat)
    requires InvAt(c, i) && TimingAt(f, c, i, src) && c.phase[i] == Leaving && src[i]
    requires Marks(PushLeft(SetPhase(f, i, Tail), i, BusyOff), PushLeft(SetPhase(c, i, Tail), i, BusyOff))
    ensures TimingAt(PushLeft(SetPhase(f, i, Tail), i, BusyOff), PushLeft(SetPhase(c, i, Tail), i, BusyOff), -1, src)
  {
    hide Rightward, Leftward, BusyHasCause, Cyclic, Count, Total, RoadTight, EndsFree;
    ActiveEmpty(c, i);
    MarksShape(f, c);
    LeaveRoad(f, i);
    LeaveCause(c, src, i);
    LeaveEnds(c, i);
    PushedFrees(f, c, i, Tail, BusyOff);
    FreesWithout(PushLeft(SetPhase(f, i, Tail), i, BusyOff), PushLeft(SetPhase(c, i, Tail), i, BusyOff), i);
  }

  lemma FreesWithout(f: Core, c: Core, i: nat)
    requires Shape(f) && Shape(c) && Devices(f) == Devices(c) && GrantsFree(f, c, i)
    ensures GrantsFree(f, c, -1)
  {
  }

  /** BBSY written to the right by the new master. */
  lemma SendOnTiming(f: Core, c: Core, src: seq<bool>, i: nat)
    requires InvAt(c, i) && TimingAt(f, c, i, src) && c.phase[i] == Hold && src[i]
    requires Marks(SendRight(f, i, BusyOn), SendRight(c, i, BusyOn))
    ensures TimingAt(SendRight(f, i, BusyOn), SendRight(c, i, BusyOn), i, src)
  {
    hide Rightward, Leftward, BusyHasCause, Cyclic, Count, Total, RoadTight, EndsFree;
    var g, d := SendRight(f, i, BusyOn), SendRight(c, i, BusyOn);
    MarksShape(f, c);
    assert g.left == f.left && g.arb == f.arb && g.phase == f.phase && d.left == c.left && d.phase == c.phase;
    SameRoad(f, g, i);
    SendOnCause(c, i, src, i);
    assert NoGrantBeyond(c, i);
    SendRightLast(f, c, i, BusyOn);
    SentFrees(f, c, i, i, BusyOn);
    SameEnds(c, d, i);
  }

  lemma SentFrees(f: Core, c: Core, a: int, i: nat, l: Letter)
    requires Shape(f) && Shape(c) && Devices(f) == Devices(c) && i < Devices(c) && l != Ask && l != GrantOff
    requires GrantsFree(f, c, a) && GrantOffAlone(c, a)
    ensures GrantsFree(SendRight(f, i, l), SendRight(c, i, l), a) && GrantOffAlone(SendRight(c, i, l), a)
  {
    hide Leftward;
    var g, d := SendRight(f, i, l), SendRight(c, i, l);
    forall k | 0 <= k < Devices(f)
      ensures Ask in g.right[k] ==> Ask in f.right[k]
      ensures GrantOff in d.right[k] ==> GrantOff in c.right[k]
    {
    }
  }

  /** Its negation written to the right. */
  lemma SendOffTiming(f: Core, c: Core, a: int, src: seq<bool>, i: nat)
    requires InvAt(c, a) && TimingAt(f, c, a, src) && i < Devices(c) && c.phase[i] == Tail
    requires Marks(SendRight(f, i, BusyOff), SendRight(c, i, BusyOff))
    ensures TimingAt(SendRight(f, i, BusyOff), SendRight(c, i, BusyOff), a, src[i := false])
  {
    hide Rightward, Leftward, BusyHasCause, Cyclic, Count, Total, RoadTight, EndsFree;
    var g, d := SendRight(f, i, BusyOff), SendRight(c, i, BusyOff);
    MarksShape(f, c);
    assert g.left == f.left && g.arb == f.arb && g.phase == f.phase && d.left == c.left && d.phase == c.phase;
    SameRoad(f, g, a);
    SendOffCause(c, a, src, i);
    assert NoGrantBeyond(c, i);
    SendRightLast(f, c, i, BusyOff);
    SentFrees(f, c, a, i, BusyOff);
    SameEnds(c, d, a);
  }

  lemma SameEnds(c: Core, d: Core, a: int)
    requires EndsFree(c, a) && d.left == c.left
    ensures EndsFree(d, a)
  {
  }

  /** Only a device's own flags change: it sees its own BBSY, or it has released. */
  lemma FlagsTiming(f: Core, g: Core, c: Core, d: Core, a: int, src: seq<bool>, i: nat)
    requires TimingAt(f, c, a, src) && i < Devices(c) && Marks(g, d) && Sources(d, src)
    requires g.arb == f.arb && g.left == f.left && g.right == f.right && d.left == c.left && d.right == c.right
    requires forall k :: 0 <= k < Devices(c) && k != i ==> d.phase[k] == c.phase[k] && d.busy[k] == c.busy[k]
    requires d.phase[i] == c.phase[i] == Hold || (c.phase[i] == Tail && d.phase[i] == Quiet && !d.busy[i] && a != i)
    ensures TimingAt(g, d, a, src)
  {
    hide Rightward, Leftward, BusyHasCause;
    assert Road(Ahead(g, a)) == Road(Ahead(f, a)) by {
      if a >= 0 && f.phase[a] == Leaving {
        SamePush(g, f, a);
      }
    }
    FlagsCause(c, d, a, src, i);
    SameGrants(g, c, d, a);
  }

  lemma FlagsCause(c: Core, d: Core, a: int, src: seq<bool>, i: nat)
    requires Shape(c) && Shape(d) && -1 <= a < Devices(c) && Devices(d) == Devices(c) && i < Devices(c)
    requires BusyHasCause(c, a, src) && d.left == c.left && d.right == c.right
    requires forall k :: 0 <= k < Devices(c) && k != i ==> d.phase[k] == c.phase[k] && d.busy[k] == c.busy[k]
    requires d.phase[i] == c.phase[i] == Hold || (c.phase[i] == Tail && d.phase[i] == Quiet && !d.busy[i] && a != i)
    ensures BusyHasCause(d, a, src)
  {
    hide Rightward, Leftward, EndsOn;
    forall x: nat | x < Devices(c) ensures Coming(d, a, x) == Coming(c, a, x) {
    }
  }
}
