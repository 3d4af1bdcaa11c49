/** When the arbiter answers and when its answers arrive: what the marked bus keeps besides the
    invariant of `ArbitrationCore`. */
module GrantTiming {
  import opened BusStreams
  import opened ArbitrationCore
  import opened MarkedBus

  // Everything on its way to the arbiter, oldest first

  ghost function Road(f: Core): seq<Letter> { f.arb + Leftward(f.left, 0) }

  /** The part that device `i` no longer has before it. */
  ghost function Upto(f: Core, i: nat): seq<Letter>
    requires i <= |f.left|
  {
    if i == 0 then f.arb else Upto(f, i - 1) + f.left[i - 1]
  }

  lemma {:induction false} RoadIs(f: Core, i: nat)
    requires i <= |f.left|
    ensures Road(f) == Upto(f, i) + Leftward(f.left, i)
  {
    if i > 0 {
      RoadIs(f, i - 1);
      Regroup(Upto(f, i - 1), f.left[i - 1], [], Leftward(f.left, i));
    }
  }

  lemma {:induction false} UptoFrame(f: Core, d: Core, i: nat)
    requires i <= |f.left| && i <= |d.left| && d.arb == f.arb && forall k :: 0 <= k < i ==> d.left[k] == f.left[k]
    ensures Upto(d, i) == Upto(f, i)
  {
    if i > 0 {
      UptoFrame(f, d, i - 1);
    }
  }

  /** Writing to the left puts the letter behind what the device has no longer before it. */
  lemma RoadPush(f: Core, i: nat, l: Letter)
    requires i < |f.left|
    ensures Road(PushLeft(f, i, l)) == Upto(f, i) + [l] + Leftward(f.left, i)
    ensures Leftward(PushLeft(f, i, l).left, i) == Leftward(f.left, i)
  {
    var d := PushLeft(f, i, l);
    RoadIs(d, i);
    LeftFrame(f.left, d.left, i);
    if i > 0 {
      UptoFrame(f, d, i - 1);
      assert Upto(d, i) == Upto(f, i) + [l];
    }
  }

  /** No BBSY-negated follows anything but its own device's SACK-negated. */
  ghost predicate Tight(w: seq<Letter>) {
    forall k, m :: 0 <= k && m == k + 1 < |w| && w[m] == BusyOff ==> w[k] == SackOff
  }

  lemma TightInsert(u: seq<Letter>, l: Letter, v: seq<Letter>)
    requires Tight(u + v) && l != BusyOff && (v != [] ==> v[0] != BusyOff)
    ensures Tight(u + [l] + v)
  {
    var w, t := u + v, u + [l] + v;
    forall k, m | 0 <= k && m == k + 1 < |t| && t[m] == BusyOff ensures t[k] == SackOff {
      if m < |u| {
        assert w[k] == t[k] && w[m] == t[m];
      } else {
        assert m > |u| + 1;
        var x, y := k - 1, m - 1;
        assert w[x] == t[k] && w[y] == t[m];
      }
    }
  }

  lemma TightInsertRelease(u: seq<Letter>, v: seq<Letter>)
    requires Tight(u + v) && (v != [] ==> v[0] != BusyOff)
    ensures Tight(u + [SackOff] + [BusyOff] + v)
  {
    var w, t := u + v, u + [SackOff] + [BusyOff] + v;
    forall k, m | 0 <= k && m == k + 1 < |t| && t[m] == BusyOff ensures t[k] == SackOff {
      if m < |u| {
        assert w[k] == t[k] && w[m] == t[m];
      } else if m > |u| + 1 {
        assert m > |u| + 2;
        var x, y := k - 2, m - 2;
        assert w[x] == t[k] && w[y] == t[m];
      }
    }
  }

  lemma TightTail(w: seq<Letter>)
    requires w != [] && Tight(w)
    ensures Tight(w[1..])
  {
    forall k, m | 0 <= k && m == k + 1 < |w[1..]| && w[1..][m] == BusyOff ensures w[1..][k] == SackOff {
      var x, y := k + 1, m + 1;
      assert w[x] == w[1..][k] && w[y] == w[1..][m];
    }
  }

  /** The bus with the BBSY-negated that a leaving device is about to write. */
  ghost function Ahead(f: Core, a: int): Core
    requires Shape(f) && -1 <= a < Devices(f)
  {
    if a >= 0 && f.phase[a] == Leaving then PushLeft(f, a, BusyOff) else f
  }

  /** `f` is `c` with the requests and grants added. */
  ghost predicate Marks(f: Core, c: Core) {
    && Shape(f) && Shape(c) && Devices(f) == Devices(c) && f.busy == c.busy && f.phase == c.phase && f.idle == c.idle
    && Strip(f.arb) == c.arb
    && (forall k :: 0 <= k < Devices(c) ==> Strip(f.left[k]) == c.left[k])
    && (forall k :: 0 <= k < Devices(c) ==> Strip(f.right[k]) == c.right[k])
  }

  // The invariant

  ghost predicate RoadTight(f: Core, a: int)
    requires Shape(f) && -1 <= a < Devices(f)
  {
    Tight(Road(Ahead(f, a)))
  }

  /** A grant on its way meets no device that still waits for a master's letters. */
  ghost predicate GrantsFree(f: Core, c: Core, a: int)
    requires Shape(f) && Shape(c) && Devices(f) == Devices(c)
  {
    forall k :: 0 <= k < Devices(f) && Ask in f.right[k] ==> Leftward(c.left, k) == [] && a <= k
  }

  /** Behind a BG-negated nothing follows, no grant either. */
  ghost predicate GrantOffLast(f: Core)
    requires Shape(f)
  {
    GrantLast(Rightward(f.right, Devices(f) - 1))
  }

  /** While a BG-negated is on its way the last master is gone and nothing of it is left. */
  ghost predicate GrantOffAlone(c: Core, a: int)
    requires Shape(c)
  {
    forall k :: 0 <= k < Devices(c) && GrantOff in c.right[k] ==> a == -1 && Leftward(c.left, 0) == []
  }

  /** With no active device the last letter of a master on its way is BBSY-negated. */
  ghost predicate EndsFree(c: Core, a: int) {
    var w := Leftward(c.left, 0);
    a == -1 && w != [] ==> w[|w| - 1] == BusyOff
  }

  /** The last BBSY letter of a word is an assertion. */
  ghost predicate EndsOn(w: seq<Letter>) {
    if w == [] then false
    else if w[|w| - 1] == BusyOn then true
    else if w[|w| - 1] == BusyOff then false
    else EndsOn(w[..|w| - 1])
  }

  predicate Clears(w: seq<Letter>) { w != [] && (w[0] == SackOff || w[0] == BusyOff) }

  /** What device `x` has still to see from further out. */
  ghost function Coming(c: Core, a: int, x: nat): seq<Letter>
    requires Shape(c) && -1 <= a < Devices(c)
  {
    Leftward(c.left, x) + if a > x then Owed(c, a) else []
  }

  ghost predicate SourceBelow(src: seq<bool>, x: int) { exists y :: 0 <= y < x && y < |src| && src[y] }

  /** A BBSY that is seen, or on its way down, has a device that will negate it. */
  ghost predicate BusyHasCause(c: Core, a: int, src: seq<bool>)
    requires Shape(c) && -1 <= a < Devices(c)
  {
    && (forall x :: 0 <= x < Devices(c) && EndsOn(Rightward(c.right, x)) ==> SourceBelow(src, x))
    && (forall x :: 0 <= x < Devices(c) && c.phase[x] == Quiet && c.busy[x] && Plain(Rightward(c.right, x)) ==>
          Clears(Coming(c, a, x)) || SourceBelow(src, x))
  }

  /** `src[i]`: device `i` has asserted BBSY to the right, or is about to, and not negated it. */
  ghost predicate Sources(c: Core, src: seq<bool>) {
    Shape(c) && |src| == Devices(c) && forall i :: 0 <= i < Devices(c) && src[i] ==> c.phase[i] != Quiet
  }

  ghost predicate TimingAt(f: Core, c: Core, a: int, src: seq<bool>) {
    && Marks(f, c) && -1 <= a < Devices(c) && Sources(c, src)
    && RoadTight(f, a) && GrantsFree(f, c, a) && GrantOffLast(f)
    && GrantOffAlone(c, a) && EndsFree(c, a) && BusyHasCause(c, a, src)
  }

  // What follows from it

  lemma StripRoad(f: Core, c: Core, x: nat)
    requires Marks(f, c)
    ensures Strip(Leftward(f.left, x)) == Leftward(c.left, x)
  {
    StripLeftward(f.left, c.left, x);
  }

  /** If the next letter a device sees on the marked bus is BBSY-negated, it is so on the bus. */
  lemma NextIsFree(f: Core, c: Core, a: int, x: nat)
    requires Marks(f, c) && -1 <= a < Devices(c) && x < Devices(c) && (a >= 0 ==> Leftward(c.left, a) == [])
    requires var v := Leftward(Ahead(f, a).left, x); v != [] && v[0] == BusyOff
    ensures Clears(Coming(c, a, x)) && (a == -1 || x < a)
  {
    var v := Leftward(Ahead(f, a).left, x);
    StripHead(v);
    StripRoad(f, c, x);
    if a >= 0 && f.phase[a] == Leaving {
      var d := PushLeft(c, a, BusyOff);
      StripPushed(f, c, a, BusyOff);
      StripLeftward(Ahead(f, a).left, d.left, x);
      PushLeftWords(c, a, BusyOff, x);
      if x >= a {
        var p := LeftSuffix(c.left, a, x);
      }
    } else if 0 <= a <= x {
      var p := LeftSuffix(c.left, a, x);
    }
  }

  lemma StripPushed(f: Core, c: Core, i: nat, l: Letter)
    requires Marks(f, c) && i < Devices(c) && l != Ask
    ensures var e, d := PushLeft(f, i, l), PushLeft(c, i, l);
            && Strip(e.arb) == d.arb && |e.left| == |d.left|
            && forall k :: 0 <= k < |e.left| ==> Strip(e.left[k]) == d.left[k]
  {
    StripOne(l);
    if i == 0 {
      StripConcat(f.arb, [l]);
    } else {
      StripConcat(f.left[i - 1], [l]);
    }
  }

  lemma InRoad(f: Core, i: nat, l: Letter, x: Letter)
    requires i < |f.left|
    ensures x in Road(PushLeft(f, i, l)) <==> x in Road(f) || x == l
  {
    RoadPush(f, i, l);
    RoadIs(f, i);
  }

  lemma RoadLetters(f: Core, c: Core, l: Letter)
    requires Marks(f, c) && l != Ask
    ensures l in Road(f) <==> l in c.arb || l in Leftward(c.left, 0)
  {
    StripRoad(f, c, 0);
    StripMember(f.arb, l);
    StripMember(Leftward(f.left, 0), l);
  }

  /** The arbiter answers only when nothing of the last master is left: it sees SACK negated,
      and what it reads leads to a grant. */
  lemma AnswersAlone(f: Core, c: Core, a: int)
    requires InvAt(c, a) && Marks(f, c) && RoadTight(f, a) && f.idle && f.arb != [] && f.arb[0] == Ask
    ensures a == -1 && Leftward(c.left, 0) == []
  {
    hide Leftward, Rightward, Count, Total, Cyclic, GrantLast, Places;
    NoSackAnywhere(f, c, a);
    StartsWithAsk(f, a);
    NoFreeBehind(Road(Ahead(f, a)));
    NothingOwed(f, c, a);
  }

  lemma NoFreeBehind(w: seq<Letter>)
    requires Tight(w) && w != [] && w[0] != BusyOff && SackOff !in w
    ensures BusyOff !in w
  {
    forall m | 0 <= m < |w| ensures w[m] != BusyOff {
      if m > 0 {
        var k := m - 1;
        assert w[k] != SackOff;
      }
    }
  }

  lemma StartsWithAsk(f: Core, a: int)
    requires Shape(f) && -1 <= a < Devices(f) && f.arb != [] && f.arb[0] == Ask
    ensures Road(Ahead(f, a)) != [] && Road(Ahead(f, a))[0] == Ask
  {
  }

  lemma NoSackAnywhere(f: Core, c: Core, a: int)
    requires InvAt(c, a) && Marks(f, c) && f.idle
    ensures SackOff !in Road(Ahead(f, a)) && SackOff !in Leftward(c.left, 0) + Owed(c, a)
    ensures a >= 0 ==> c.phase[a] == Leaving
  {
    hide Rightward, Count, Total, Cyclic, GrantLast, Leftward;
    TokenPlaces(c, a);
    NoLetterLeft(c, SackOff, 0);
    RoadLetters(f, c, SackOff);
    if a >= 0 {
      InRoad(f, a, BusyOff, SackOff);
    }
  }

  lemma NothingOwed(f: Core, c: Core, a: int)
    requires InvAt(c, a) && Marks(f, c) && SackOff !in Leftward(c.left, 0) + Owed(c, a)
    requires a >= 0 ==> c.phase[a] == Leaving
    requires BusyOff !in Road(Ahead(f, a))
    ensures a == -1 && Leftward(c.left, 0) == []
  {
    hide Rightward, Count, Total, GrantLast, Leftward;
    CyclicWithoutSack(Leftward(c.left, 0) + Owed(c, a));
    RoadLetters(f, c, BusyOff);
    if a >= 0 {
      InRoad(f, a, BusyOff, BusyOff);
    }
  }

  /** Parts of the two invariants, for lemmas that need no more of them. */
  lemma InvSays(c: Core, a: int)
    requires InvAt(c, a)
    ensures Shape(c) && -1 <= a < Devices(c) && OneActive(c, a) && TailsClear(c, a)
    ensures GrantLast(Rightward(c.right, Devices(c) - 1))
  {
  }

  lemma GrantOffSays(c: Core, a: int, i: nat)
    requires Shape(c) && i < Devices(c) && c.right[i] != [] && c.right[i][0] == GrantOff && GrantOffAlone(c, a)
    ensures a == -1 && Leftward(c.left, 0) == [] && GrantOff in c.right[i]
  {
    assert GrantOff in c.right[i];
  }

  lemma CauseSays(c: Core, a: int, src: seq<bool>, i: nat)
    requires Shape(c) && -1 <= a < Devices(c) && i < Devices(c) && BusyHasCause(c, a, src)
    requires c.phase[i] == Quiet && c.busy[i] && Plain(Rightward(c.right, i))
    ensures Clears(Coming(c, a, i)) || SourceBelow(src, i)
  {
  }

  /** A device that has a BG-negated to read sees the bus free. */
  lemma GrantFindsFree(f: Core, c: Core, a: int, src: seq<bool>, i: nat)
    requires InvAt(c, a) && TimingAt(f, c, a, src) && i < Devices(c)
    requires c.right[i] != [] && c.right[i][0] == GrantOff && (c.phase[i] == Quiet || c.phase[i] == Hold)
    ensures !c.busy[i] && a == -1 && c.phase[i] == Quiet
  {
    hide InvAt, RoadTight, GrantOffLast, GrantsFree, GrantOffAlone, BusyHasCause, EndsFree, Marks,
         Leftward, Rightward, TailsClear;
    InvSays(c, a);
    GrantOffSays(c, a, i);
    GrantIsLast(c, i);
    NoSourceBelow(c, a, src, i);
    var p := LeftSuffix(c.left, 0, i);
    if c.busy[i] {
      CauseSays(c, a, src, i);
    }
  }

  lemma NoSourceBelow(c: Core, a: int, src: seq<bool>, i: nat)
    requires Shape(c) && a == -1 && OneActive(c, a) && TailsClear(c, a) && Sources(c, src) && i < Devices(c)
    requires GrantOff in c.right[i]
    ensures !SourceBelow(src, i)
  {
    var lane := c.right[i];
    forall y | 0 <= y < i && y < |src| ensures !src[y] {
      assert NoGrantBeyond(c, y) ==> GrantOff !in lane;
    }
  }
}
