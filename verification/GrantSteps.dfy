/** Every move of the bus keeps the timing of grants. */
module GrantSteps {
  import opened BusStreams
  import opened ArbitrationCore
  import opened MarkedBus
  import opened GrantTiming

  // The road to the arbiter

  /** Passing a letter on leaves the road as it is. */
  lemma MoveRoad(f: Core, i: nat)
    requires Shape(f) && i < Devices(f) && f.left[i] != []
    ensures Road(MoveLeft(f, i)) == Road(f)
  {
    hide Leftward;
    MoveLeftWords(f, i, 0);
    if i == 0 {
      Regroup(f.arb, [f.left[0][0]], [], Leftward(MoveLeft(f, 0).left, 0));
    }
  }

  lemma SameRoad(f: Core, d: Core, a: int)
    requires Shape(f) && Shape(d) && Devices(f) == Devices(d)
    requires d.arb == f.arb && d.left == f.left && d.phase == f.phase
    requires -1 <= a < Devices(f) && RoadTight(f, a)
    ensures RoadTight(d, a)
  {
    if a > 0 {
      assert PushLeft(d, a, BusyOff).left == PushLeft(f, a, BusyOff).left;
    }
  }

  lemma MoveLeftRoad(f: Core, a: int, i: nat)
    requires Shape(f) && -1 <= a < Devices(f) && i < Devices(f) && f.left[i] != [] && f.phase[i] != Leaving
    requires RoadTight(f, a)
    ensures RoadTight(MoveLeft(f, i), a)
  {
    hide Leftward;
    MoveRoad(f, i);
    if a >= 0 && f.phase[a] == Leaving {
      var g := PushLeft(f, a, BusyOff);
      MoveRoad(g, i);
      MovesCommute(f, a, i);
    }
  }

  lemma MovesCommute(f: Core, a: nat, i: nat)
    requires Shape(f) && a < Devices(f) && i < Devices(f) && i != a && f.left[i] != []
    ensures var g := PushLeft(f, a, BusyOff);
            g.left[i] != [] && Shape(g) && Road(MoveLeft(g, i)) == Road(PushLeft(MoveLeft(f, i), a, BusyOff))
  {
    hide Leftward;
    var d, e := MoveLeft(PushLeft(f, a, BusyOff), i), PushLeft(MoveLeft(f, i), a, BusyOff);
    if a == i + 1 {
      assert (f.left[i] + [BusyOff])[1..] == f.left[i][1..] + [BusyOff];
    }
    assert d.left == e.left && d.arb == e.arb;
  }

  /** A letter other than BBSY-negated, written where no BBSY-negated comes next. */
  lemma PushRoad(f: Core, a: int, i: nat, l: Letter)
    requires Shape(f) && -1 <= a < Devices(f) && i < Devices(f) && RoadTight(f, a) && l != BusyOff
    requires f.phase[i] != Leaving
    requires var v := Leftward(Ahead(f, a).left, i); v != [] ==> v[0] != BusyOff
    ensures RoadTight(PushLeft(f, i, l), a)
  {
    hide Leftward;
    var g := Ahead(f, a);
    RoadIs(g, i);
    RoadPush(g, i, l);
    TightInsert(Upto(g, i), l, Leftward(g.left, i));
    if a >= 0 && f.phase[a] == Leaving {
      PushesCommute(f, a, i, l);
    }
  }

  lemma PushesCommute(f: Core, a: nat, i: nat, l: Letter)
    requires Shape(f) && a < Devices(f) && i < Devices(f) && i != a
    ensures Road(PushLeft(PushLeft(f, a, BusyOff), i, l)) == Road(PushLeft(PushLeft(f, i, l), a, BusyOff))
  {
    hide Leftward;
    var d, e := PushLeft(PushLeft(f, a, BusyOff), i, l), PushLeft(PushLeft(f, i, l), a, BusyOff);
    assert d.left == e.left && d.arb == e.arb;
  }

  lemma ReleaseRoad(f: Core, c: Core, i: nat)
    requires Marks(f, c) && i < Devices(f) && f.phase[i] == Hold && RoadTight(f, i) && Leftward(c.left, i) == []
    ensures RoadTight(PushLeft(SetPhase(f, i, Leaving), i, SackOff), i)
  {
    hide Leftward;
    var u, v := Upto(f, i), Leftward(f.left, i);
    NoFreeNext(f, c, i);
    RoadIs(f, i);
    TightInsertRelease(u, v);
    var d := PushLeft(SetPhase(f, i, Leaving), i, SackOff);
    TwoPushes(f, i);
    assert Road(PushLeft(d, i, BusyOff)) == Road(PushLeft(PushLeft(f, i, SackOff), i, BusyOff)) by {
      assert d.left == PushLeft(f, i, SackOff).left && d.arb == PushLeft(f, i, SackOff).arb;
      SamePush(d, PushLeft(f, i, SackOff), i);
    }
  }

  lemma SamePush(d: Core, e: Core, i: nat)
    requires d.left == e.left && d.arb == e.arb && i < |d.left|
    ensures Road(PushLeft(d, i, BusyOff)) == Road(PushLeft(e, i, BusyOff))
  {
  }

  lemma TwoPushes(f: Core, i: nat)
    requires i < |f.left|
    ensures Road(PushLeft(PushLeft(f, i, SackOff), i, BusyOff))
            == Upto(f, i) + [SackOff] + [BusyOff] + Leftward(f.left, i)
  {
    hide Leftward;
    var d := PushLeft(f, i, SackOff);
    RoadPush(f, i, SackOff);
    RoadPush(d, i, BusyOff);
    if i > 0 {
      UptoFrame(f, d, i - 1);
      assert Upto(d, i) == Upto(f, i) + [SackOff];
    }
  }

  /** Nothing of a master's waits behind the device, so no BBSY-negated is next there. */
  lemma NoFreeNext(f: Core, c: Core, i: nat)
    requires Marks(f, c) && i < Devices(f) && Leftward(c.left, i) == []
    ensures BusyOff !in Leftward(f.left, i)
  {
    StripRoad(f, c, i);
    StripMember(Leftward(f.left, i), BusyOff);
  }

  lemma LeaveRoad(f: Core, i: nat)
    requires Shape(f) && i < Devices(f) && f.phase[i] == Leaving && RoadTight(f, i)
    ensures RoadTight(PushLeft(SetPhase(f, i, Tail), i, BusyOff), -1)
  {
    var d, e := PushLeft(SetPhase(f, i, Tail), i, BusyOff), PushLeft(f, i, BusyOff);
    assert d.left == e.left && d.arb == e.arb;
  }

  lemma PopRoad(f: Core, d: Core, a: int)
    requires Shape(f) && Shape(d) && Devices(f) == Devices(d) && f.arb != [] && d.arb == f.arb[1..]
    requires d.left == f.left && d.phase == f.phase && -1 <= a < Devices(f) && RoadTight(f, a)
    ensures RoadTight(d, a)
  {
    hide Leftward;
    var g, e := Ahead(f, a), Ahead(d, a);
    assert e.left == g.left;
    assert e.arb == g.arb[1..];
    assert Road(g)[1..] == Road(e);
    TightTail(Road(g));
  }

  // Grants on their way down

  lemma {:induction false} GrantLastDrop(pre: seq<Letter>, h: Letter, w: seq<Letter>)
    requires GrantLast(pre + [h] + w)
    ensures GrantLast(pre + w)
  {
    var u, v := pre + [h] + w, pre + w;
    forall k | 0 <= k < |v| - 1 ensures v[k] != GrantOff {
      if k < |pre| {
        assert v[k] == u[k];
      } else {
        var m := k + 1;
        assert v[k] == u[m];
      }
    }
  }

  lemma DropRightLast(f: Core, i: nat)
    requires Shape(f) && i < Devices(f) && f.right[i] != [] && GrantOffLast(f)
    ensures GrantOffLast(DropRight(f, i))
  {
    hide Rightward;
    var pre := RightPop(f.right, i, Devices(f) - 1);
    GrantLastDrop(pre, f.right[i][0], Rightward(DropRight(f, i).right, i));
  }

  lemma MoveRightLast(f: Core, i: nat)
    requires Shape(f) && i < Devices(f) && f.right[i] != [] && GrantOffLast(f)
    ensures GrantOffLast(MoveRight(f, i))
  {
    hide Rightward;
    MoveRightWords(f, i, Devices(f) - 1);
    if i == Devices(f) - 1 {
      GrantLastSuffix([f.right[i][0]], Rightward(MoveRight(f, i).right, i));
    }
  }

  lemma StripGrant(f: Core, c: Core, k: nat)
    requires Marks(f, c) && k < Devices(f)
    ensures GrantOff in f.right[k] <==> GrantOff in c.right[k]
  {
    StripMember(f.right[k], GrantOff);
  }

  /** A BBSY letter written to the right, with no BG-negated further out. */
  lemma SendRightLast(f: Core, c: Core, i: nat, l: Letter)
    requires Marks(f, c) && i < Devices(f) && GrantOffLast(f) && l != GrantOff && NoGrantBeyond(c, i)
    ensures GrantOffLast(SendRight(f, i, l))
  {
    hide Rightward;
    var n := Devices(f);
    if i + 1 < n {
      var pre := RightPush(f.right, i + 1, l, n - 1);
      var tail := Rightward(f.right, i);
      forall k | i + 1 <= k < n ensures GrantOff !in f.right[k] {
        StripGrant(f, c, k);
      }
      GrantOffBeyond(f, i + 1, pre, tail);
      GrantLastInsert(pre, l, tail);
    }
  }

  lemma GrantLastInsert(pre: seq<Letter>, l: Letter, tail: seq<Letter>)
    requires GrantLast(pre + tail) && GrantOff !in pre && l != GrantOff
    ensures GrantLast(pre + [l] + tail)
  {
    var u, v := pre + tail, pre + [l] + tail;
    forall k | 0 <= k < |v| - 1 ensures v[k] != GrantOff {
      if k > |pre| {
        var m := k - 1;
        assert v[k] == u[m];
      }
    }
  }

  /** A letter from the arbiter, when no BG-negated is on its way. */
  lemma AnswerLast(f: Core, c: Core, mark: Letter)
    requires Marks(f, c) && Devices(f) > 0 && forall k :: 0 <= k < Devices(c) ==> GrantOff !in c.right[k]
    ensures GrantLast(Rightward(f.right[0 := f.right[0] + [mark]], Devices(f) - 1))
  {
    hide Rightward;
    var n := Devices(f);
    var pre := RightPush(f.right, 0, mark, n - 1);
    forall k | 0 <= k < n ensures GrantOff !in f.right[k] {
      StripGrant(f, c, k);
    }
    RightMember(f.right, n - 1, GrantOff);
    assert Rightward(f.right, -1) == [] by {
      NothingRight(f.right);
    }
    assert pre + [] == pre;
    assert Rightward(f.right[0 := f.right[0] + [mark]], n - 1) == pre + [mark] + [];
  }

  lemma NothingRight(ws: Lanes)
    ensures Rightward(ws, -1) == []
  {
  }

  // Who will negate a BBSY

  lemma {:induction false} EndsOnConcat(u: seq<Letter>, v: seq<Letter>)
    ensures EndsOn(u + v) == if Plain(v) then EndsOn(u) else EndsOn(v)
    decreases |v|
  {
    if v == [] {
      assert u + v == u;
    } else {
      var w := v[..|v| - 1];
      assert (u + v)[..|u + v| - 1] == u + w;
      assert v == w + [v[|v| - 1]];
      EndsOnConcat(u, w);
    }
  }

  lemma EndsOnPlain(w: seq<Letter>)
    requires Plain(w)
    ensures !EndsOn(w)
  {
    assert [] + w == w;
    EndsOnConcat([], w);
  }

  lemma EndsOnOne(l: Letter)
    ensures EndsOn([l]) == (l == BusyOn)
  {
    assert [l][..0] == [];
  }

  /** Reading a letter from the arbiter's side. */
  lemma MoveRightCause(c: Core, a: int, src: seq<bool>, i: nat)
    requires Shape(c) && -1 <= a < Devices(c) && i < Devices(c) && c.right[i] != [] && BusyHasCause(c, a, src)
    ensures BusyHasCause(MoveRight(c, i), a, src)
  {
    hide Rightward, Leftward, EndsOn;
    var d, h := MoveRight(c, i), c.right[i][0];
    assert d.left == c.left && d.phase == c.phase;
    forall x | 0 <= x < Devices(c)
      ensures EndsOn(Rightward(d.right, x)) ==> SourceBelow(src, x)
      ensures c.phase[x] == Quiet && d.busy[x] && Plain(Rightward(d.right, x)) ==>
                Clears(Coming(d, a, x)) || SourceBelow(src, x)
    {
      MoveRightWords(c, i, x);
      assert Coming(d, a, x) == Coming(c, a, x);
      if x == i {
        var w := Rightward(d.right, i);
        EndsOnConcat([h], w);
        EndsOnOne(h);
        if Plain(w) {
          EndsOnPlain(w);
        }
      }
    }
  }

  lemma DropWords(c: Core, i: nat, x: nat)
    requires Shape(c) && i < Devices(c) && x < Devices(c) && c.right[i] != []
    requires c.right[i][0] == GrantOff
    ensures EndsOn(Rightward(DropRight(c, i).right, x)) == EndsOn(Rightward(c.right, x))
    ensures Plain(Rightward(DropRight(c, i).right, x)) <==> Plain(Rightward(c.right, x))
  {
    hide Rightward, EndsOn;
    var d := DropRight(c, i);
    var pre := RightPop(c.right, i, x);
    if x >= i {
      var w := Rightward(d.right, i);
      EndsOnConcat(pre, [GrantOff]);
      EndsOnConcat(pre + [GrantOff], w);
      EndsOnConcat(pre, w);
    }
  }

  /** Passing a letter from further out. */
  lemma MoveLeftCause(c: Core, a: int, src: seq<bool>, i: nat)
    requires Shape(c) && -1 <= a < Devices(c) && i < Devices(c) && c.left[i] != []
    requires BusyHasCause(c, a, src) && EndsFree(c, a)
    requires InvAt(c, a)
    ensures BusyHasCause(MoveLeft(c, i), a, src)
  {
    hide InvAt, Rightward, Leftward, EndsOn, Cyclic, Count, Total, EndsFree;
    var d := MoveLeft(c, i);
    assert d.right == c.right && d.phase == c.phase;
    forall x | 0 <= x < Devices(c) && c.phase[x] == Quiet && d.busy[x] && Plain(Rightward(d.right, x))
      ensures Clears(Coming(d, a, x)) || SourceBelow(src, x)
    {
      MoveLeftWords(c, i, x);
      if x == i {
        PassedClears(c, a, i);
      } else {
        assert Coming(d, a, x) == Coming(c, a, x);
      }
    }
  }

  /** Behind BBSY or SACK on its way to the arbiter the rest of the master's letters follow. */
  lemma PassedClears(c: Core, a: int, i: nat)
    requires Shape(c) && -1 <= a < Devices(c) && i < Devices(c) && c.left[i] != [] && EndsFree(c, a)
    requires InvAt(c, a)
    ensures c.left[i][0] == BusyOn || c.left[i][0] == SackOff ==> Clears(Coming(MoveLeft(c, i), a, i))
    ensures c.left[i][0] != GrantOff && c.left[i][0] != Ask
  {
    hide Rightward, Leftward, Count, Total, Places;
    var h, w := c.left[i][0], Coming(MoveLeft(c, i), a, i);
    MoveLeftWords(c, i, i);
    CyclicAt(c, a, i);
    ActiveBeyond(c, a, i);
    assert Leftward(c.left, i) + Owed(c, a) == [h] + w;
    LastIsFree(c, a, i);
    CyclicHead(h, w);
  }

  lemma ActiveBeyond(c: Core, a: int, i: nat)
    requires InvAt(c, a) && i < Devices(c) && Leftward(c.left, i) != []
    ensures a == -1 || i < a
  {
    if 0 <= a <= i {
      var p := LeftSuffix(c.left, a, i);
    }
  }

  lemma LastIsFree(c: Core, a: int, i: nat)
    requires Shape(c) && -1 <= a < Devices(c) && i < Devices(c) && EndsFree(c, a)
    ensures a == -1 && Leftward(c.left, i) != [] ==> Leftward(c.left, i)[|Leftward(c.left, i)| - 1] == BusyOff
  {
    hide Leftward;
    var p := LeftSuffix(c.left, 0, i);
  }

  lemma CyclicHead(h: Letter, w: seq<Letter>)
    requires Cyclic([h] + w) && (w == [] ==> h == BusyOff || h == SackOff)
    ensures h != GrantOff && h != Ask
    ensures w != [] && (h == BusyOn || h == SackOff) ==> Clears(w)
    ensures h == BusyOn ==> w != []
  {
    var u := [h] + w;
    assert u[0] == h;
    if w != [] {
      assert u[1] == w[0];
      assert Follows(u[0], u[1]);
    }
  }

  /** A device that starts or goes on as a master explains every BBSY further out. */
  lemma SourceHere(src: seq<bool>, i: nat, x: int)
    requires i < x && i < |src| && src[i]
    ensures SourceBelow(src, x)
  {
  }

  lemma TakeGrantCause(c: Core, src: seq<bool>, i: nat)
    requires Shape(c) && i < Devices(c) && |src| == Devices(c) && BusyHasCause(c, -1, src)
    requires c.right[i] == [GrantOff] && (forall k :: 0 <= k < i ==> c.right[k] == [])
    requires Leftward(c.left, 0) == [] && !SourceBelow(src, i)
    ensures BusyHasCause(TakeGrant(c, i), i, src[i := true])
  {
    hide Rightward, Leftward, EndsOn;
    var d, now := TakeGrant(c, i), src[i := true];
    forall x | 0 <= x < Devices(c)
      ensures EndsOn(Rightward(d.right, x)) ==> SourceBelow(now, x)
      ensures d.phase[x] == Quiet && d.busy[x] && Plain(Rightward(d.right, x)) ==>
                Clears(Coming(d, i, x)) || SourceBelow(now, x)
    {
      DropWords(c, i, x);
      if x > i {
        SourceHere(now, i, x);
      } else {
        EmptyLanes(d.right, x);
        EndsOnPlain([]);
        NotBusyBefore(c, src, i, x);
      }
    }
  }

  lemma EmptyLanes(ws: Lanes, x: nat)
    requires x < |ws| && forall k :: 0 <= k <= x ==> ws[k] == []
    ensures Rightward(ws, x) == []
  {
    EmptyRight(ws, x);
  }

  lemma NotBusyBefore(c: Core, src: seq<bool>, i: nat, x: nat)
    requires Shape(c) && x <= i < Devices(c) && BusyHasCause(c, -1, src)
    requires c.right[i] == [GrantOff] && (forall k :: 0 <= k < i ==> c.right[k] == [])
    requires Leftward(c.left, 0) == [] && !SourceBelow(src, i)
    ensures c.phase[x] == Quiet ==> !c.busy[x]
  {
    hide Leftward, EndsOn;
    var p := LeftSuffix(c.left, 0, x);
    if x > 0 {
      EmptyLanes(c.right, x - 1);
    }
    assert Rightward(c.right, x) == c.right[x] + Rightward(c.right, x - 1);
    assert Plain(Rightward(c.right, x));
    assert Coming(c, -1, x) == [];
    assert SourceBelow(src, x) ==> SourceBelow(src, i);
  }

  /** BBSY written to the right, by a device that is a source. */
  lemma SendOnCause(c: Core, a: int, src: seq<bool>, i: nat)
    requires Shape(c) && -1 <= a < Devices(c) && i < Devices(c)
    requires |src| == Devices(c) && src[i] && BusyHasCause(c, a, src)
    ensures BusyHasCause(SendRight(c, i, BusyOn), a, src)
  {
    hide Rightward, Leftward, EndsOn;
    var d := SendRight(c, i, BusyOn);
    assert d.left == c.left && d.phase == c.phase && d.busy == c.busy;
    forall x | 0 <= x < Devices(c)
      ensures EndsOn(Rightward(d.right, x)) ==> SourceBelow(src, x)
      ensures Plain(Rightward(d.right, x)) && x <= i ==> Plain(Rightward(c.right, x))
      ensures Coming(d, a, x) == Coming(c, a, x)
    {
      if x > i {
        SourceHere(src, i, x);
      } else {
        RightFrame(c.right, d.right, x);
      }
    }
    forall x | i < x < Devices(c) ensures SourceBelow(src, x) {
      SourceHere(src, i, x);
    }
  }

  /** Its negation written to the right: the device is no longer a source. */
  lemma SendOffCause(c: Core, a: int, src: seq<bool>, i: nat)
    requires Shape(c) && -1 <= a < Devices(c) && i < Devices(c) && |src| == Devices(c) && BusyHasCause(c, a, src)
    ensures BusyHasCause(SendRight(c, i, BusyOff), a, src[i := false])
  {
    hide Rightward, Leftward, EndsOn;
    var d, now := SendRight(c, i, BusyOff), src[i := false];
    assert d.left == c.left && d.phase == c.phase && d.busy == c.busy;
    forall x | 0 <= x < Devices(c)
      ensures EndsOn(Rightward(d.right, x)) ==> SourceBelow(now, x)
      ensures c.phase[x] == Quiet && c.busy[x] && Plain(Rightward(d.right, x)) ==>
                Clears(Coming(d, a, x)) || SourceBelow(now, x)
    {
      assert Coming(d, a, x) == Coming(c, a, x);
      if x <= i {
        RightFrame(c.right, d.right, x);
        StillSource(src, i, x, x);
      } else {
        var pre := RightPush(c.right, i + 1, BusyOff, x);
        var tail := Rightward(c.right, i);
        EndsOnOne(BusyOff);
        EndsOnConcat(pre, [BusyOff]);
        EndsOnConcat(pre + [BusyOff], tail);
        assert (pre + [BusyOff] + tail)[|pre|] == BusyOff;
        StillSource(src, i, i, x);
        if !Plain(tail) {
          assert EndsOn(tail) ==> SourceBelow(src, i);
        }
      }
    }
  }

  lemma StillSource(src: seq<bool>, i: nat, x: int, z: int)
    requires i < |src| && x <= i && x <= z
    ensures SourceBelow(src, x) ==> SourceBelow(src[i := false], z)
  {
    if SourceBelow(src, x) {
      var y :| 0 <= y < x && y < |src| && src[y];
      assert src[i := false][y];
    }
  }

  /** The active device's own letters to the left: what others have still to see starts as
      before. */
  lemma ReleaseCause(c: Core, src: seq<bool>, i: nat)
    requires Shape(c) && i < Devices(c) && |src| == Devices(c) && BusyHasCause(c, i, src) && Leftward(c.left, i) == []
    requires src[i] && c.phase[i] == Hold
    ensures BusyHasCause(PushLeft(SetPhase(c, i, Leaving), i, SackOff), i, src)
  {
    hide Rightward, Leftward, EndsOn;
    var e := SetPhase(c, i, Leaving);
    var d := PushLeft(e, i, SackOff);
    forall x | 0 <= x < Devices(c) ensures Clears(Coming(c, i, x)) ==> Clears(Coming(d, i, x)) {
      PushLeftWords(e, i, SackOff, x);
    }
    assert d.right == c.right && d.busy == c.busy;
  }

  lemma LeaveCause(c: Core, src: seq<bool>, i: nat)
    requires Shape(c) && i < Devices(c) && |src| == Devices(c) && BusyHasCause(c, i, src) && Leftward(c.left, i) == []
    requires src[i] && c.phase[i] == Leaving
    ensures BusyHasCause(PushLeft(SetPhase(c, i, Tail), i, BusyOff), -1, src)
  {
    hide Rightward, Leftward, EndsOn;
    var e := SetPhase(c, i, Tail);
    var d := PushLeft(e, i, BusyOff);
    forall x | 0 <= x < Devices(c) ensures Clears(Coming(c, i, x)) ==> Clears(Coming(d, -1, x)) {
      PushLeftWords(e, i, BusyOff, x);
    }
    assert d.right == c.right && d.busy == c.busy;
  }

  lemma LeaveEnds(c: Core, i: nat)
    requires Shape(c) && i < Devices(c) && Leftward(c.left, i) == []
    ensures EndsFree(PushLeft(SetPhase(c, i, Tail), i, BusyOff), -1)
  {
    hide Leftward;
    PushLeftWords(SetPhase(c, i, Tail), i, BusyOff, 0);
  }

  lemma MoveLeftEnds(c: Core, a: int, i: nat)
    requires Shape(c) && i < Devices(c) && c.left[i] != [] && EndsFree(c, a)
    ensures EndsFree(MoveLeft(c, i), a)
  {
    hide Leftward;
    MoveLeftWords(c, i, 0);
  }

  /** The arbiter's BG-negated changes nothing about BBSY. */
  lemma AnswerCause(c: Core, a: int, src: seq<bool>)
    requires Shape(c) && -1 <= a < Devices(c) && Devices(c) > 0 && BusyHasCause(c, a, src)
    ensures BusyHasCause(c.(right := c.right[0 := c.right[0] + [GrantOff]]), a, src)
  {
    hide Rightward, Leftward, EndsOn;
    var d := c.(right := c.right[0 := c.right[0] + [GrantOff]]);
    forall x | 0 <= x < Devices(c)
      ensures EndsOn(Rightward(d.right, x)) == EndsOn(Rightward(c.right, x))
      ensures Plain(Rightward(d.right, x)) <==> Plain(Rightward(c.right, x))
      ensures Coming(d, a, x) == Coming(c, a, x)
    {
      var pre := RightPush(c.right, 0, GrantOff, x);
      NothingRight(c.right);
      assert pre + [] == pre && pre + [GrantOff] + [] == pre + [GrantOff];
      EndsOnConcat(pre, [GrantOff]);
    }
  }
}
