/** The arbitration protocol reduced to the letters of `BusStreams`, without `Ask`: which moves the
    chain of devices and the arbiter can make, and the invariant every move keeps. */
module ArbitrationCore {
  import opened BusStreams

  /** What a device owes the bus.  `Hold`: from taking a grant until its SACK-negated
      leaves; `Leaving`: until its BBSY-negated leaves for the arbiter; `Tail`: until it
      has finished releasing. */
  datatype Phase = Quiet | Hold | Leaving | Tail

  /** `idle`: the arbiter sees SACK negated.  `arb`: letters in the arbiter's queue. */
  datatype Core = Core(idle: bool, arb: seq<Letter>, left: Lanes, right: Lanes,
                       busy: seq<bool>, phase: seq<Phase>)

  predicate Active(p: Phase) { p == Hold || p == Leaving }

  ghost predicate Plain(w: seq<Letter>) { BusyOn !in w && BusyOff !in w }

  ghost predicate Shape(c: Core) {
    |c.left| == |c.right| == |c.busy| == |c.phase|
  }

  ghost function Devices(c: Core): nat { |c.left| }

  /** The next letter the active device `a` will send towards the arbiter. */
  ghost function Owed(c: Core, a: int): seq<Letter>
    requires Shape(c) && -1 <= a < Devices(c)
  {
    if a == -1 then [] else if c.phase[a] == Hold then [SackOff] else [BusyOff]
  }

  /** The permission to become master, counted over every place it can be. */
  ghost function Tokens(c: Core, a: int): nat
    requires Shape(c) && -1 <= a < Devices(c)
  {
    (if c.idle then 1 else 0) + Count(c.arb, SackOff) + Total(c.left, SackOff)
    + Total(c.right, GrantOff) + (if a >= 0 && c.phase[a] == Hold then 1 else 0)
  }

  /** The order in which one device's letters follow each other, round after round. */
  predicate Follows(p: Letter, q: Letter) {
    match p
    case BusyOn => q == SackOff
    case SackOff => q == BusyOff
    case BusyOff => q == BusyOn
    case GrantOff => false
    case Ask => false
  }

  ghost predicate Cyclic(w: seq<Letter>) {
    && (forall k, m :: 0 <= k && m == k + 1 < |w| ==> Follows(w[k], w[m]))
    && (w != [] ==> w[|w| - 1] == SackOff || w[|w| - 1] == BusyOff)
  }

  /** Device `a` is the only active one (-1: none is). */
  ghost predicate OneActive(c: Core, a: int)
    requires Shape(c)
  {
    forall i :: 0 <= i < Devices(c) ==> (Active(c.phase[i]) <==> i == a)
  }

  ghost predicate NoGrantBeyond(c: Core, i: int)
    requires Shape(c)
  {
    forall k :: i < k < Devices(c) && 0 <= k ==> GrantOff !in c.right[k]
  }

  /** Nothing that changes BBSY is on its way to the active device. */
  ghost predicate ActiveClear(c: Core, a: int)
    requires Shape(c) && -1 <= a < Devices(c)
  {
    a >= 0 ==> Leftward(c.left, a) == [] && Plain(Rightward(c.right, a)) && NoGrantBeyond(c, a)
  }

  ghost predicate TailsClear(c: Core, a: int)
    requires Shape(c)
  {
    forall t :: 0 <= t < Devices(c) && c.phase[t] == Tail ==>
      Leftward(c.left, t) == [] && a < t && NoGrantBeyond(c, t)
  }

  /** No letter follows a grant down the chain. */
  ghost predicate GrantLast(w: seq<Letter>) {
    forall k :: 0 <= k < |w| - 1 ==> w[k] != GrantOff
  }

  /** A device that is to see SACK or BBSY negated next believes the bus busy. */
  ghost predicate BusySeen(c: Core, a: int)
    requires Shape(c) && -1 <= a < Devices(c)
  {
    forall x :: 0 <= x < Devices(c) && (a == -1 || x < a) ==>
      var w := Leftward(c.left, x) + Owed(c, a);
      w != [] && (w[0] == SackOff || w[0] == BusyOff) ==> c.busy[x]
  }

  /** BBSY changes never reach a device from both sides. */
  ghost predicate Apart(c: Core)
    requires Shape(c)
  {
    forall x :: 0 <= x < Devices(c) ==> Plain(Rightward(c.right, x)) || Leftward(c.left, x) == []
  }

  /** Who is active, and what cannot be on its way to whom. */
  ghost predicate Places(c: Core, a: int)
    requires Shape(c) && -1 <= a < Devices(c)
  {
    OneActive(c, a) && ActiveClear(c, a) && TailsClear(c, a) && Apart(c)
  }

  /** In which order letters travel, and what that makes devices believe. */
  ghost predicate Order(c: Core, a: int)
    requires Shape(c) && -1 <= a < Devices(c)
  {
    && GrantLast(Rightward(c.right, Devices(c) - 1))
    && Cyclic(Leftward(c.left, 0) + Owed(c, a))
    && BusySeen(c, a)
  }

  ghost predicate InvAt(c: Core, a: int) {
    && Shape(c)
    && -1 <= a < Devices(c)
    && Tokens(c, a) <= 1
    && Places(c, a)
    && Order(c, a)
  }

  // The moves.  `i` is the device that makes the move.

  function PushLeft(c: Core, i: nat, l: Letter): (d: Core)
    requires i < |c.left|
  {
    if i == 0 then c.(arb := c.arb + [l]) else c.(left := c.left[i - 1 := c.left[i - 1] + [l]])
  }

  function PushRight(c: Core, i: nat, l: Letter): (d: Core)
    requires i < |c.right|
  {
    if i + 1 < |c.right| then c.(right := c.right[i + 1 := c.right[i + 1] + [l]]) else c
  }

  function Seen(b: bool, l: Letter): bool {
    if l == BusyOn then true else if l == BusyOff then false else b
  }

  function ArbPop(c: Core): Core
    requires c.arb != []
  {
    c.(arb := c.arb[1..], idle := c.idle || c.arb[0] == SackOff)
  }

  function ArbGrant(c: Core): Core {
    c.(idle := false, right := if |c.right| > 0 then c.right[0 := c.right[0] + [GrantOff]] else c.right)
  }

  function ArbHold(c: Core): Core { c.(idle := false) }

  function MoveLeft(c: Core, i: nat): Core
    requires i < |c.left| == |c.busy| && c.left[i] != []
  {
    var l := c.left[i][0];
    PushLeft(c.(left := c.left[i := c.left[i][1..]], busy := c.busy[i := Seen(c.busy[i], l)]), i, l)
  }

  function MoveRight(c: Core, i: nat): Core
    requires i < |c.right| == |c.busy| && c.right[i] != []
  {
    var l := c.right[i][0];
    PushRight(c.(right := c.right[i := c.right[i][1..]], busy := c.busy[i := Seen(c.busy[i], l)]), i, l)
  }

  function DropRight(c: Core, i: nat): Core
    requires i < |c.right| && c.right[i] != []
  {
    c.(right := c.right[i := c.right[i][1..]])
  }

  function TakeGrant(c: Core, i: nat): Core
    requires i < |c.right| == |c.left| == |c.phase| && c.right[i] != []
  {
    PushLeft(DropRight(c, i).(phase := c.phase[i := Hold]), i, BusyOn)
  }

  function SetBusy(c: Core, i: nat, b: bool): Core
    requires i < |c.busy|
  {
    c.(busy := c.busy[i := b])
  }

  function SetPhase(c: Core, i: nat, p: Phase): Core
    requires i < |c.phase|
  {
    c.(phase := c.phase[i := p])
  }

  // Consequences of the invariant that several moves need

  lemma TokenPlaces(c: Core, a: int)
    requires InvAt(c, a)
    ensures c.idle ==> SackOff !in c.arb && (forall k :: 0 <= k < Devices(c) ==> SackOff !in c.left[k])
                       && (forall k :: 0 <= k < Devices(c) ==> GrantOff !in c.right[k])
                       && (a >= 0 ==> c.phase[a] == Leaving)
    ensures a >= 0 && c.phase[a] == Hold ==>
              (forall k :: 0 <= k < Devices(c) ==> SackOff !in c.left[k])
              && (forall k :: 0 <= k < Devices(c) ==> GrantOff !in c.right[k])
    ensures (exists k :: 0 <= k < Devices(c) && GrantOff in c.right[k]) ==>
              (forall k :: 0 <= k < Devices(c) ==> SackOff !in c.left[k])
              && (a >= 0 ==> c.phase[a] == Leaving)
  {
    CountMember(c.arb, SackOff);
    forall k | 0 <= k < Devices(c) && SackOff in c.left[k] ensures Total(c.left, SackOff) > 0 {
      TotalMember(c.left, k, SackOff);
    }
    forall k | 0 <= k < Devices(c) && GrantOff in c.right[k] ensures Total(c.right, GrantOff) > 0 {
      TotalMember(c.right, k, GrantOff);
    }
  }

  lemma NoLetterLeft(c: Core, l: Letter, x: nat)
    requires forall k :: 0 <= k < |c.left| ==> l !in c.left[k]
    ensures l !in Leftward(c.left, x)
  {
    LeftMember(c.left, x, l);
  }

  /** A cyclic word without SACK-negated is at most one BBSY-negated. */
  lemma CyclicWithoutSack(w: seq<Letter>)
    requires Cyclic(w) && SackOff !in w
    ensures w == [] || w == [BusyOff]
  {
    assert |w| >= 2 ==> Follows(w[|w| - 2], w[|w| - 1]);
  }

  /** Suffixes of a word keep its order. */
  lemma CyclicSuffix(pre: seq<Letter>, w: seq<Letter>, o: seq<Letter>)
    requires Cyclic(pre + w + o)
    ensures Cyclic(w + o)
  {
    var u := pre + w + o;
    forall k, m | 0 <= k && m == k + 1 < |w + o| ensures Follows((w + o)[k], (w + o)[m]) {
      assert (w + o)[k] == u[|pre| + k] && (w + o)[m] == u[|pre| + m];
    }
    if w + o != [] {
      assert (w + o)[|w + o| - 1] == u[|u| - 1];
    }
  }

  /** The order holds for what any one device has still to see. */
  lemma CyclicAt(c: Core, a: int, x: nat)
    requires InvAt(c, a)
    ensures Cyclic(Leftward(c.left, x) + Owed(c, a))
  {
    var pre := LeftSuffix(c.left, 0, x);
    CyclicSuffix(pre, Leftward(c.left, x), Owed(c, a));
  }

  lemma GrantLastSuffix(pre: seq<Letter>, w: seq<Letter>)
    requires GrantLast(pre + w)
    ensures GrantLast(w)
    ensures w != [] ==> GrantOff !in pre
  {
    forall k | 0 <= k < |w| - 1 ensures w[k] != GrantOff {
      assert w[k] == (pre + w)[|pre| + k];
    }
    assert forall k :: 0 <= k < |pre| ==> (pre + w)[k] == pre[k];
  }

  /** The heart of the protocol: a device that can take a grant (it does not see the bus
      busy) finds no active device and nothing under way to it. */
  lemma GrantIsSafe(c: Core, a: int, i: nat)
    requires InvAt(c, a) && i < Devices(c)
    requires c.phase[i] == Quiet || c.phase[i] == Hold
    requires c.right[i] != [] && c.right[i][0] == GrantOff && !c.busy[i]
    ensures a == -1 && c.phase[i] == Quiet && !c.idle
    ensures Leftward(c.left, i) == []
    ensures Rightward(c.right, i) == [GrantOff]
    ensures Leftward(c.left, 0) == [] || Leftward(c.left, 0) == [BusyOff]
  {
    hide Leftward, Rightward, Count, Total, Cyclic, NoGrantBeyond;
    TokenPlaces(c, a);
    assert GrantOff in c.right[i];
    GrantIsLast(c, i);
    // no active device further out: it would owe this one a BBSY-negated
    NoLetterLeft(c, SackOff, i);
    NoLetterLeft(c, SackOff, 0);
    CyclicAt(c, a, i);
    CyclicAt(c, a, 0);
    CyclicWithoutSack(Leftward(c.left, i) + Owed(c, a));
    CyclicWithoutSack(Leftward(c.left, 0) + Owed(c, a));
    NothingAhead(c, a, i);
  }

  /** Nothing follows a grant down the chain. */
  lemma GrantIsLast(c: Core, i: nat)
    requires Shape(c) && GrantLast(Rightward(c.right, Devices(c) - 1)) && i < Devices(c)
    requires c.right[i] != [] && c.right[i][0] == GrantOff
    ensures Rightward(c.right, i) == [GrantOff]
    ensures c.right[i] == [GrantOff] && forall k :: 0 <= k < i ==> c.right[k] == []
  {
    var pre := RightSuffix(c.right, Devices(c) - 1, i);
    GrantLastSuffix(pre, Rightward(c.right, i));
    var v := Rightward(c.right, i);
    assert v == c.right[i] + Rightward(c.right, i - 1);
    assert v[0] == GrantOff;
    assert v == [GrantOff];
    forall k | 0 <= k < i ensures c.right[k] == [] {
      var q := RightSuffix(c.right, i - 1, k);
    }
  }

  /** A device that sees the bus free and has a grant waits for no letter of an active one. */
  lemma NothingAhead(c: Core, a: int, i: nat)
    requires Shape(c) && -1 <= a < Devices(c) && i < Devices(c)
    requires OneActive(c, a) && ActiveClear(c, a) && BusySeen(c, a)
    requires (a >= 0 ==> c.phase[a] == Leaving) && (c.phase[i] == Quiet || c.phase[i] == Hold)
    requires var w := Leftward(c.left, i) + Owed(c, a); w == [] || w == [BusyOff]
    ensures c.busy[i] || GrantOff !in c.right[i] || (a == -1 && c.phase[i] == Quiet && Leftward(c.left, i) == [])
  {
    hide Leftward, Rightward;
    var w := Leftward(c.left, i) + Owed(c, a);
    if w != [] && (a == -1 || i < a) {
      assert w[0] == BusyOff;
    } else if 0 <= a < i {
      assert NoGrantBeyond(c, a);
    }
  }

  // Every move keeps the invariant

  lemma ArbPopKeeps(c: Core, a: int)
    requires InvAt(c, a) && c.arb != []
    ensures InvAt(ArbPop(c), a)
  {
    hide Leftward, Rightward, Cyclic, GrantLast, Total, Plain;
    TokenPlaces(c, a);
  }

  lemma ArbHoldKeeps(c: Core, a: int)
    requires InvAt(c, a)
    ensures InvAt(ArbHold(c), a)
  {
    hide Leftward, Rightward, Cyclic, GrantLast, Count, Total, Plain;
  }

  lemma ArbGrantKeeps(c: Core, a: int)
    requires InvAt(c, a) && c.idle
    ensures InvAt(ArbGrant(c), a)
  {
    hide Leftward, Cyclic, GrantLast, Count, Total, Plain;
    var n := Devices(c);
    var d := ArbGrant(c);
    if n > 0 {
      TokenPlaces(c, a);
      TotalPush(c.right, 0, GrantOff, GrantOff);
      PushRightKeeps(c, d, 0, GrantOff);
    }
  }

  /** Writing a letter to lane `j` from the arbiter's side: the order and separation of
      the words survive when no grant is further out, nothing BBSY-like is behind, and
      a BBSY letter meets no device that waits for one from the other side. */
  lemma PushRightKeeps(c: Core, d: Core, j: nat, l: Letter)
    requires Shape(c) && j < Devices(c)
    requires d.left == c.left && d.right == c.right[j := c.right[j] + [l]]
             && |d.busy| == |d.phase| == Devices(c)
    requires GrantLast(Rightward(c.right, Devices(c) - 1)) && Apart(c)
    requires forall k :: j <= k < Devices(c) ==> GrantOff !in c.right[k]
    requires l == GrantOff ==> Rightward(c.right, j - 1) == []
    requires l != GrantOff ==> Leftward(c.left, j) == []
    ensures GrantLast(Rightward(d.right, Devices(c) - 1))
    ensures Apart(d)
    ensures forall x: int :: x < Devices(c) && (l == GrantOff || x < j) ==>
              (Plain(Rightward(d.right, x)) <==> Plain(Rightward(c.right, x)))
  {
    var n := Devices(c);
    var pre := RightPush(c.right, j, l, n - 1);
    var tail := Rightward(c.right, j - 1);
    assert GrantOff !in pre by {
      GrantOffBeyond(c, j, pre, tail);
    }
    GrantLastSuffix(pre, tail);
    assert Rightward(d.right, n - 1) == pre + [l] + tail;
    forall x: int | x < n && (l == GrantOff || x < j)
      ensures Plain(Rightward(d.right, x)) <==> Plain(Rightward(c.right, x))
    {
      var p := RightPush(c.right, j, l, x);
    }
    forall x | 0 <= x < n ensures Plain(Rightward(d.right, x)) || Leftward(d.left, x) == [] {
      if l != GrantOff && x >= j {
        var p := LeftSuffix(c.left, j, x);
      }
    }
  }

  /** If no lane from `j` on holds a grant, none stands before the letters behind `j`. */
  lemma GrantOffBeyond(c: Core, j: nat, pre: seq<Letter>, tail: seq<Letter>)
    requires Shape(c) && j < Devices(c)
    requires forall k :: j <= k < Devices(c) ==> GrantOff !in c.right[k]
    requires Rightward(c.right, Devices(c) - 1) == pre + tail && tail == Rightward(c.right, j - 1)
    ensures GrantOff !in pre
  {
    var cut := seq(Devices(c), k requires 0 <= k < Devices(c) => if k < j then [] else c.right[k]);
    CutPrefix(c.right, cut, j, Devices(c) - 1, pre);
    RightMember(cut, Devices(c) - 1, GrantOff);
  }

  /** The letters standing before lane `j - 1` are those of the lanes from `j` on. */
  lemma {:induction false} CutPrefix(ws: Lanes, cut: Lanes, j: nat, x: int, pre: seq<Letter>)
    requires |cut| == |ws| && j - 1 <= x < |ws|
    requires forall k :: 0 <= k < |ws| ==> cut[k] == if k < j then [] else ws[k]
    requires Rightward(ws, x) == pre + Rightward(ws, j - 1)
    ensures Rightward(cut, x) == pre
    decreases x + 1
  {
    if x == j - 1 {
      EmptyRight(cut, x);
      assert |pre| == 0;
    } else {
      var p := RightSuffix(ws, x - 1, j - 1);
      SameSuffix(ws[x], p, pre, Rightward(ws, j - 1));
      CutPrefix(ws, cut, j, x - 1, p);
    }
  }

  lemma SameSuffix(u: seq<Letter>, p: seq<Letter>, pre: seq<Letter>, w: seq<Letter>)
    requires u + (p + w) == pre + w
    ensures u + p == pre
  {
    var all := pre + w;
    assert all == (u + p) + w;
    assert |u + p| == |pre|;
    assert all[..|pre|] == pre && all[..|u + p|] == u + p;
  }

  lemma {:induction false} EmptyRight(ws: Lanes, x: int)
    requires x < |ws| && forall k :: 0 <= k <= x ==> ws[k] == []
    ensures Rightward(ws, x) == []
    decreases x + 1
  {
    if x >= 0 {
      EmptyRight(ws, x - 1);
    }
  }

  /** What passing a letter towards the arbiter does to the words. */
  lemma MoveLeftWords(c: Core, i: nat, x: nat)
    requires Shape(c) && i < Devices(c) && c.left[i] != []
    ensures var d := MoveLeft(c, i);
            Leftward(c.left, x) == if x == i then [c.left[i][0]] + Leftward(d.left, x) else Leftward(d.left, x)
  {
    hide Leftward;
    var h := c.left[i][0];
    if i > 0 {
      LeftMove(c.left, i, x);
      assert MoveLeft(c, i).left == c.left[i := c.left[i][1..]][i - 1 := c.left[i - 1] + [h]];
    } else {
      LeftPop(c.left, x);
    }
  }

  lemma MoveLeftCounts(c: Core, i: nat, l: Letter)
    requires Shape(c) && i < Devices(c) && c.left[i] != []
    ensures Count(c.arb, l) + Total(c.left, l) == Count(MoveLeft(c, i).arb, l) + Total(MoveLeft(c, i).left, l)
  {
    var h := c.left[i][0];
    TotalPop(c.left, i, l);
    if i > 0 {
      TotalPush(c.left[i := c.left[i][1..]], i - 1, h, l);
    } else {
      CountConcat(c.arb, [h], l);
      assert Count([h], l) == (if h == l then 1 else 0) + Count([], l) by { assert [h][1..] == []; }
    }
  }

  lemma MoveLeftTokens(c: Core, d: Core, a: int, i: nat)
    requires Shape(c) && i < Devices(c) && c.left[i] != [] && -1 <= a < Devices(c) && d == MoveLeft(c, i)
    ensures Shape(d) && Devices(d) == Devices(c) && d.right == c.right && Tokens(d, a) == Tokens(c, a)
  {
    hide Count, Total;
    MoveLeftCounts(c, i, SackOff);
  }

  lemma MoveLeftKeeps(c: Core, a: int, i: nat)
    requires InvAt(c, a) && i < Devices(c) && c.left[i] != [] && (c.phase[i] == Quiet || c.phase[i] == Hold)
    ensures InvAt(MoveLeft(c, i), a)
    ensures c.phase[i] == Quiet && i != a
  {
    hide Leftward, Rightward, Cyclic, GrantLast, Tokens, Plain, Places, BusySeen, MoveLeft;
    var d := MoveLeft(c, i);
    MoveLeftTokens(c, d, a, i);
    MoveLeftPlaces(c, d, a, i);
    MoveLeftOrder(c, d, a, i);
  }

  lemma MoveLeftPlaces(c: Core, d: Core, a: int, i: nat)
    requires Shape(c) && -1 <= a < Devices(c) && Places(c, a)
    requires i < Devices(c) && c.left[i] != [] && d == MoveLeft(c, i)
    requires c.phase[i] == Quiet || c.phase[i] == Hold
    ensures Places(d, a) && c.phase[i] == Quiet && i != a
  {
    assert Leftward(c.left, i) != [];
    forall x | 0 <= x < Devices(c) && Leftward(c.left, x) == [] ensures Leftward(d.left, x) == [] {
      MoveLeftWords(c, i, x);
    }
    PlacesFrame(c, d, a);
  }

  /** Devices that had nothing to wait for from further out still have nothing. */
  lemma PlacesFrame(c: Core, d: Core, a: int)
    requires Shape(c) && Shape(d) && -1 <= a < Devices(c) && d.right == c.right && d.phase == c.phase
    requires Places(c, a)
    requires forall x :: 0 <= x < Devices(c) && Leftward(c.left, x) == [] ==> Leftward(d.left, x) == []
    ensures Places(d, a)
  {
  }

  lemma MoveLeftOrder(c: Core, d: Core, a: int, i: nat)
    requires Shape(c) && i < Devices(c) && c.left[i] != [] && d == MoveLeft(c, i)
    requires Shape(d) && -1 <= a < Devices(d)
    requires InvAt(c, a)
    ensures Cyclic(Leftward(d.left, 0) + Owed(d, a)) && BusySeen(d, a)
  {
    hide Leftward, Rightward, GrantLast, Count, Total, Plain, Places;
    var h := c.left[i][0];
    MoveLeftWords(c, i, 0);
    if i == 0 {
      assert [h] + Leftward(d.left, 0) + Owed(c, a) == Leftward(c.left, 0) + Owed(c, a);
      CyclicSuffix([h], Leftward(d.left, 0), Owed(c, a));
    }
    forall x | 0 <= x < Devices(c) && (a == -1 || x < a)
      ensures var w := Leftward(d.left, x) + Owed(d, a);
              w != [] && (w[0] == SackOff || w[0] == BusyOff) ==> d.busy[x]
    {
      MoveLeftWords(c, i, x);
      if x == i {
        CyclicAt(c, a, i);
        var w := Leftward(c.left, i) + Owed(c, a);
        var v := Leftward(d.left, i) + Owed(c, a);
        assert w == [h] + v;
        assert v != [] ==> Follows(w[0], w[1]);
      }
    }
  }

  lemma MoveRightWords(c: Core, i: nat, x: int)
    requires Shape(c) && i < Devices(c) && c.right[i] != [] && x < Devices(c)
    ensures var d := MoveRight(c, i);
            Rightward(c.right, x) == if x == i then [c.right[i][0]] + Rightward(d.right, x) else Rightward(d.right, x)
  {
    hide Rightward;
    var h := c.right[i][0];
    if i + 1 < Devices(c) {
      RightMove(c.right, i, x);
      assert MoveRight(c, i).right == c.right[i := c.right[i][1..]][i + 1 := c.right[i + 1] + [h]];
    } else {
      var p := RightPop(c.right, i, x);
    }
  }

  lemma MoveRightCounts(c: Core, i: nat)
    requires Shape(c) && i < Devices(c) && c.right[i] != []
    ensures Total(MoveRight(c, i).right, GrantOff) <= Total(c.right, GrantOff)
  {
    var h := c.right[i][0];
    TotalPop(c.right, i, GrantOff);
    if i + 1 < Devices(c) {
      TotalPush(c.right[i := c.right[i][1..]], i + 1, h, GrantOff);
    }
  }

  lemma MoveRightKeeps(c: Core, a: int, i: nat)
    requires InvAt(c, a) && i < Devices(c) && c.right[i] != [] && (c.phase[i] == Quiet || c.phase[i] == Hold)
    ensures InvAt(MoveRight(c, i), a)
    ensures c.right[i][0] == BusyOn || c.right[i][0] == BusyOff ==> c.phase[i] == Quiet && i != a
  {
    var d := MoveRight(c, i);
    MoveRightCounts(c, i);
    MoveRightPlaces(c, d, a, i);
    MoveRightOrder(c, d, a, i);
  }

  lemma MoveRightPlaces(c: Core, d: Core, a: int, i: nat)
    requires Shape(c) && i < Devices(c) && c.right[i] != [] && d == MoveRight(c, i)
    requires Shape(d) && -1 <= a < Devices(d) && (c.phase[i] == Quiet || c.phase[i] == Hold)
    requires InvAt(c, a)
    ensures Places(d, a)
  {
    hide Rightward, Leftward, Cyclic, GrantLast, Tokens, NoGrantBeyond;
    if a >= 0 {
      MoveRightWords(c, i, a);
    }
    forall x | 0 <= x < Devices(c) ensures Plain(Rightward(d.right, x)) || Leftward(d.left, x) == [] {
      MoveRightWords(c, i, x);
    }
    MoveRightGrants(c, d, a, i);
  }

  lemma MoveRightGrants(c: Core, d: Core, a: int, i: nat)
    requires InvAt(c, a) && i < Devices(c) && c.right[i] != [] && (c.phase[i] == Quiet || c.phase[i] == Hold)
    requires d == MoveRight(c, i)
    ensures a >= 0 ==> NoGrantBeyond(d, a)
    ensures forall t :: 0 <= t < Devices(c) && c.phase[t] == Tail ==> NoGrantBeyond(d, t)
  {
    TokenPlaces(c, a);
    var h := c.right[i][0];
    assert h in c.right[i];
    forall x | NoGrantBeyond(c, x) && (h == GrantOff ==> i != x) ensures NoGrantBeyond(d, x) {
      forall k | x < k < Devices(c) && 0 <= k ensures GrantOff !in d.right[k] {
        assert GrantOff !in c.right[k];
        assert h == GrantOff ==> i <= x;
      }
    }
  }

  lemma MoveRightOrder(c: Core, d: Core, a: int, i: nat)
    requires Shape(c) && i < Devices(c) && c.right[i] != [] && d == MoveRight(c, i)
    requires Shape(d) && -1 <= a < Devices(d)
    requires InvAt(c, a)
    ensures Order(d, a)
    ensures c.right[i][0] == BusyOn || c.right[i][0] == BusyOff ==> i != a
  {
    hide Leftward, Rightward, Cyclic, Count, Total, Plain, NoGrantBeyond, Places;
    var n := Devices(c);
    MoveRightWords(c, i, n - 1);
    if n - 1 == i {
      GrantLastSuffix([c.right[i][0]], Rightward(d.right, n - 1));
    }
    MoveRightBusy(c, d, a, i);
  }

  lemma MoveRightBusy(c: Core, d: Core, a: int, i: nat)
    requires Shape(c) && i < Devices(c) && c.right[i] != []
    requires d == MoveRight(c, i)
    requires Shape(d) && -1 <= a < Devices(d)
    requires InvAt(c, a)
    ensures BusySeen(d, a)
    ensures c.right[i][0] == BusyOn || c.right[i][0] == BusyOff ==> i != a && (a == -1 || a < i)
  {
    hide Leftward, Cyclic, Count, Total, NoGrantBeyond;
    var h := c.right[i][0];
    assert h in Rightward(c.right, i);
    if (h == BusyOn || h == BusyOff) && a >= i {
      var p := RightSuffix(c.right, a, i);
      assert false;
    }
  }

  lemma DropRightKeeps(c: Core, a: int, i: nat)
    requires InvAt(c, a) && i < Devices(c) && c.right[i] != [] && c.right[i][0] == GrantOff
    ensures InvAt(DropRight(c, i), a)
  {
    hide Leftward, Cyclic, Rightward, Count, Total, NoGrantBeyond;
    var n := Devices(c);
    var d := DropRight(c, i);
    TotalPop(c.right, i, GrantOff);
    DropRightWords(c, i, n - 1);
    assert d.left == c.left && d.phase == c.phase;
    DropRightPlaces(c, d, a, i);
  }

  /** Taking a grant off the bus leaves the BBSY letters where they are. */
  lemma DropRightWords(c: Core, i: nat, x: int)
    requires Shape(c) && i < Devices(c) && x < Devices(c) && c.right[i] != [] && c.right[i][0] == GrantOff
    ensures Plain(Rightward(DropRight(c, i).right, x)) <==> Plain(Rightward(c.right, x))
    ensures GrantLast(Rightward(c.right, x)) ==> GrantLast(Rightward(DropRight(c, i).right, x))
  {
    var d := DropRight(c, i);
    var pre := RightPop(c.right, i, x);
    if x >= i {
      var w := Rightward(d.right, i);
      assert Rightward(c.right, x) == pre + [GrantOff] + w;
      if GrantLast(pre + [GrantOff] + w) {
        assert forall k :: 0 <= k < |pre| ==> (pre + [GrantOff] + w)[k] == pre[k];
        assert (pre + [GrantOff] + w)[|pre|] == GrantOff;
        assert w == [];
      }
    }
  }

  lemma DropRightPlaces(c: Core, d: Core, a: int, i: nat)
    requires Shape(c) && -1 <= a < Devices(c) && Places(c, a)
    requires i < Devices(c) && c.right[i] != [] && c.right[i][0] == GrantOff && d == DropRight(c, i)
    ensures Places(d, a)
  {
    if a >= 0 {
      DropRightWords(c, i, a);
    }
    forall x | 0 <= x < Devices(c) ensures Plain(Rightward(d.right, x)) || Leftward(d.left, x) == [] {
      DropRightWords(c, i, x);
    }
    forall x | NoGrantBeyond(c, x) ensures NoGrantBeyond(d, x) {
      forall k | x < k < Devices(c) && 0 <= k ensures GrantOff !in d.right[k] {
        assert GrantOff !in c.right[k];
      }
    }
  }

  /** What a letter written towards the arbiter by a device with nothing behind it does. */
  lemma PushLeftWords(c: Core, i: nat, l: Letter, x: nat)
    requires Shape(c) && i < Devices(c) && Leftward(c.left, i) == []
    ensures Leftward(PushLeft(c, i, l).left, x) == Leftward(c.left, x) + if x < i then [l] else []
    ensures forall m :: Count(PushLeft(c, i, l).arb, m) + Total(PushLeft(c, i, l).left, m)
                        == Count(c.arb, m) + Total(c.left, m) + if l == m then 1 else 0
  {
    if i > 0 {
      LeftPush(c.left, i - 1, l, x);
    }
    forall m ensures Count(PushLeft(c, i, l).arb, m) + Total(PushLeft(c, i, l).left, m)
                        == Count(c.arb, m) + Total(c.left, m) + if l == m then 1 else 0
    {
      if i > 0 {
        TotalPush(c.left, i - 1, l, m);
      } else {
        CountConcat(c.arb, [l], m);
        assert Count([l], m) == (if l == m then 1 else 0) + Count([], m) by { assert [l][1..] == []; }
      }
    }
  }

  /** Device `i` writes `l` towards the arbiter and moves from owing `l` to owing `o`;
      `a` is who was active before, `b` who is active after. */
  lemma PushLeftOrder(c: Core, d: Core, i: nat, l: Letter, a: int, b: int)
    requires Shape(c) && i < Devices(c) && Leftward(c.left, i) == []
    requires -1 <= a < Devices(c) && -1 <= b < Devices(c)
    requires Shape(d) && Devices(d) == Devices(c) && d.left == PushLeft(c, i, l).left && d.busy == c.busy
    requires Cyclic(Leftward(c.left, 0) + Owed(c, a)) && BusySeen(c, a)
    requires (a == i && Owed(c, a) == [l])
             || (a == -1 && l == BusyOn && (Leftward(c.left, 0) == [] || Leftward(c.left, 0) == [BusyOff]))
    requires (b == i && |Owed(d, b)| == 1 && Follows(l, Owed(d, b)[0])) || (b == -1 && l == BusyOff)
    ensures Cyclic(Leftward(d.left, 0) + Owed(d, b)) && BusySeen(d, b)
  {
    hide Leftward, Cyclic, BusySeen, Follows;
    PushLeftWords(c, i, l, 0);
    var w := Leftward(c.left, 0);
    CyclicExtends(w, Owed(c, a), l, Owed(d, b));
    if i == 0 {
      assert Leftward(d.left, 0) + Owed(d, b) == Owed(d, b);
    }
    PushLeftSeen(c, d, i, l, a, b);
  }

  /** A device's next letter keeps the order, if it was owed or starts a new round. */
  lemma CyclicExtends(w: seq<Letter>, owed: seq<Letter>, l: Letter, next: seq<Letter>)
    requires Cyclic(w + owed) && (owed == [l] || (owed == [] && l == BusyOn && (w == [] || w == [BusyOff])))
    requires (|next| == 1 && Follows(l, next[0]) && next[0] != BusyOn) || (next == [] && l == BusyOff)
    ensures Cyclic(w + [l] + next) && Cyclic(next)
  {
    var u, v := w + owed, w + [l] + next;
    forall k, m | 0 <= k && m == k + 1 < |v| ensures Follows(v[k], v[m]) {
      if m < |w| || (m == |w| && owed == [l]) {
        assert v[k] == u[k] && v[m] == u[m];
      }
    }
  }

  lemma PushLeftSeen(c: Core, d: Core, i: nat, l: Letter, a: int, b: int)
    requires Shape(c) && i < Devices(c) && Leftward(c.left, i) == []
    requires -1 <= a < Devices(c) && -1 <= b < Devices(c)
    requires Shape(d) && Devices(d) == Devices(c) && d.left == PushLeft(c, i, l).left && d.busy == c.busy
    requires BusySeen(c, a) && (b == i || b == -1)
    requires (a == i && Owed(c, a) == [l])
             || (a == -1 && l == BusyOn && (Leftward(c.left, 0) == [] || Leftward(c.left, 0) == [BusyOff]))
    requires b == -1 ==> l == BusyOff
    ensures BusySeen(d, b)
  {
    hide Leftward;
    forall x | 0 <= x < Devices(d) && (b == -1 || x < b)
      ensures var w := Leftward(d.left, x) + Owed(d, b);
              w != [] && (w[0] == SackOff || w[0] == BusyOff) ==> d.busy[x]
    {
      PushLeftWords(c, i, l, x);
      if x >= i {
        var p := LeftSuffix(c.left, i, x);
      } else {
        SeenBefore(c, x, i, l, a);
      }
    }
  }

  /** A device further in has seen what the next letter towards it says. */
  lemma SeenBefore(c: Core, x: nat, i: nat, l: Letter, a: int)
    requires Shape(c) && x < i < Devices(c) && -1 <= a < Devices(c) && BusySeen(c, a)
    requires (a == i && Owed(c, a) == [l]) || (a == -1 && l == BusyOn)
    ensures var w := Leftward(c.left, x) + [l];
            w[0] == SackOff || w[0] == BusyOff ==> c.busy[x]
  {
    hide Leftward;
    var u := Leftward(c.left, x) + Owed(c, a);
    assert a == -1 && Leftward(c.left, x) != [] ==> u[0] == Leftward(c.left, x)[0];
  }

  /** A device that does not see the bus busy takes the grant and becomes the active one. */
  lemma TakeGrantKeeps(c: Core, a: int, i: nat)
    requires InvAt(c, a) && i < Devices(c) && (c.phase[i] == Quiet || c.phase[i] == Hold)
    requires c.right[i] != [] && c.right[i][0] == GrantOff && !c.busy[i]
    ensures a == -1 && c.phase[i] == Quiet && !c.idle
    ensures InvAt(TakeGrant(c, i), i)
  {
    hide Tokens, Places, Order, Leftward, Rightward;
    GrantIsSafe(c, a, i);
    TakeGrantTokens(c, i);
    TakeGrantOrder(c, i);
    TakeGrantPlaced(c, i);
  }

  lemma TakeGrantTokens(c: Core, i: nat)
    requires Shape(c) && i < Devices(c) && c.right[i] != [] && c.right[i][0] == GrantOff && Leftward(c.left, i) == []
    requires Tokens(c, -1) <= 1
    ensures Shape(TakeGrant(c, i)) && Tokens(TakeGrant(c, i), i) <= 1
  {
    hide Leftward, Count, Total;
    TotalPop(c.right, i, GrantOff);
    PushLeftWords(DropRight(c, i).(phase := c.phase[i := Hold]), i, BusyOn, 0);
  }

  lemma TakeGrantOrder(c: Core, i: nat)
    requires Shape(c) && i < Devices(c) && c.right[i] != [] && c.right[i][0] == GrantOff && Leftward(c.left, i) == []
    requires Order(c, -1) && (Leftward(c.left, 0) == [] || Leftward(c.left, 0) == [BusyOff])
    ensures Shape(TakeGrant(c, i)) && Order(TakeGrant(c, i), i)
  {
    hide Leftward, Rightward, Cyclic, BusySeen, GrantLast;
    var f := DropRight(c, i).(phase := c.phase[i := Hold]);
    DropRightWords(c, i, Devices(c) - 1);
    SameSeen(c, f);
    PushLeftOrder(f, TakeGrant(c, i), i, BusyOn, -1, i);
  }

  lemma SameSeen(c: Core, f: Core)
    requires Shape(c) && Shape(f) && f.left == c.left && f.busy == c.busy && BusySeen(c, -1)
    ensures BusySeen(f, -1)
  {
  }

  lemma TakeGrantPlaced(c: Core, i: nat)
    requires Shape(c) && i < Devices(c) && c.phase[i] == Quiet && c.right[i] != [] && c.right[i][0] == GrantOff
    requires Shape(TakeGrant(c, i)) && Leftward(c.left, i) == []
    requires InvAt(c, -1)
    ensures Places(TakeGrant(c, i), i)
  {
    hide Tokens, Leftward, Rightward, Cyclic, BusySeen;
    var e := DropRight(c, i);
    DropRightKeeps(c, -1, i);
    GrantIsLast(c, i);
    var pre := RightPop(c.right, i, i);
    assert Rightward(e.right, i) == [];
    OnlyGrant(c, e, i);
    TakeGrantPlaces(c, e, TakeGrant(c, i), i);
  }

  lemma TakeGrantPlaces(c: Core, e: Core, d: Core, i: nat)
    requires Shape(c) && i < Devices(c) && c.phase[i] == Quiet && Places(c, -1)
    requires c.right[i] != [] && c.right[i][0] == GrantOff
    requires e == DropRight(c, i) && Places(e, -1) && d == TakeGrant(c, i)
    requires forall k :: 0 <= k < Devices(e) ==> GrantOff !in e.right[k]
    requires Leftward(c.left, i) == [] && Rightward(e.right, i) == []
    ensures Places(d, i)
  {
    var f := e.(phase := e.phase[i := Hold]);
    forall x: nat | x >= i ensures Leftward(d.left, x) == Leftward(c.left, x) {
      PushLeftWords(f, i, BusyOn, x);
    }
    forall x | 0 <= x < i ensures Rightward(d.right, x) == [] {
      var p := RightSuffix(d.right, i, x);
    }
    TakeGrantTails(c, i);
    assert TailsClear(d, i);
  }

  lemma TakeGrantTails(c: Core, i: nat)
    requires Shape(c) && i < Devices(c) && TailsClear(c, -1) && c.phase[i] == Quiet && GrantOff in c.right[i]
    ensures forall t :: 0 <= t < Devices(c) && c.phase[t] == Tail ==> i < t
  {
    forall t | 0 <= t < Devices(c) && c.phase[t] == Tail ensures i < t {
      assert NoGrantBeyond(c, t);
    }
  }

  lemma OnlyGrant(c: Core, e: Core, i: nat)
    requires InvAt(c, -1) && i < Devices(c)
    requires c.right[i] != [] && c.right[i][0] == GrantOff && e == DropRight(c, i)
    ensures forall k :: 0 <= k < Devices(e) ==> GrantOff !in e.right[k]
  {
    TotalPop(c.right, i, GrantOff);
    forall k | 0 <= k < Devices(e) ensures GrantOff !in e.right[k] {
      if GrantOff in e.right[k] {
        TotalMember(e.right, k, GrantOff);
      }
    }
  }

  /** The new master's BBSY also leaves for the far end. */
  function SendRight(c: Core, i: nat, l: Letter): Core
    requires i < |c.right|
  {
    PushRight(c, i, l)
  }

  lemma SendBusyRightKeeps(c: Core, a: int, i: nat)
    requires InvAt(c, a) && i < Devices(c) && c.phase[i] == Hold
    ensures InvAt(SendRight(c, i, BusyOn), a)
  {
    var d := SendRight(c, i, BusyOn);
    TokenPlaces(c, a);
    SendRightKeeps(c, d, a, i, BusyOn);
  }

  lemma SendFreeRightKeeps(c: Core, a: int, i: nat)
    requires InvAt(c, a) && i < Devices(c) && c.phase[i] == Tail
    ensures InvAt(SendRight(c, i, BusyOff), a)
  {
    var d := SendRight(c, i, BusyOff);
    assert NoGrantBeyond(c, i);
    SendRightKeeps(c, d, a, i, BusyOff);
  }

  lemma SendRightKeeps(c: Core, d: Core, a: int, i: nat, l: Letter)
    requires InvAt(c, a) && i < Devices(c) && (l == BusyOn || l == BusyOff)
    requires NoGrantBeyond(c, i) && Leftward(c.left, i) == [] && a <= i
    requires d == SendRight(c, i, l)
    ensures InvAt(d, a)
  {
    if i + 1 < Devices(c) {
      SendRightWords(c, d, i, l);
      SendRightPlaces(c, d, a, i, l);
      SendRightRest(c, d, a);
    } else {
      assert d == c;
    }
  }

  lemma SendRightWords(c: Core, d: Core, i: nat, l: Letter)
    requires Shape(c) && i + 1 < Devices(c) && (l == BusyOn || l == BusyOff)
    requires GrantLast(Rightward(c.right, Devices(c) - 1)) && Apart(c)
    requires NoGrantBeyond(c, i) && Leftward(c.left, i) == []
    requires d == SendRight(c, i, l)
    ensures GrantLast(Rightward(d.right, Devices(d) - 1)) && Apart(d)
    ensures Total(d.right, GrantOff) == Total(c.right, GrantOff)
    ensures forall x: int :: x < i + 1 ==> (Plain(Rightward(d.right, x)) <==> Plain(Rightward(c.right, x)))
  {
    TotalPush(c.right, i + 1, l, GrantOff);
    var p := LeftSuffix(c.left, i, i + 1);
    PushRightKeeps(c, d, i + 1, l);
  }

  lemma SendRightRest(c: Core, d: Core, a: int)
    requires InvAt(c, a) && Shape(d) && Devices(d) == Devices(c)
    requires d.left == c.left && d.phase == c.phase && d.busy == c.busy && d.idle == c.idle && d.arb == c.arb
    requires Total(d.right, GrantOff) == Total(c.right, GrantOff)
    requires GrantLast(Rightward(d.right, Devices(d) - 1))
    ensures Tokens(d, a) <= 1 && Order(d, a)
  {
  }

  lemma SendRightPlaces(c: Core, d: Core, a: int, i: nat, l: Letter)
    requires Shape(c) && -1 <= a < Devices(c) && Places(c, a)
    requires i + 1 < Devices(c) && (l == BusyOn || l == BusyOff) && a <= i
    requires d == SendRight(c, i, l) && Apart(d)
    requires forall x: int :: x < i + 1 ==> (Plain(Rightward(d.right, x)) <==> Plain(Rightward(c.right, x)))
    ensures Places(d, a)
  {
    forall x | NoGrantBeyond(c, x) ensures NoGrantBeyond(d, x) {
      forall k | x < k < Devices(c) && 0 <= k ensures GrantOff !in d.right[k] {
        assert GrantOff !in c.right[k];
      }
    }
  }

  /** The new master's own view of BBSY. */
  lemma SetBusyKeeps(c: Core, a: int, i: nat)
    requires InvAt(c, a) && i < Devices(c) && c.phase[i] == Hold
    ensures InvAt(SetBusy(c, i, true), a)
  {
  }

  lemma StartReleaseKeeps(c: Core, a: int, i: nat)
    requires InvAt(c, a) && i < Devices(c) && c.phase[i] == Hold
    ensures InvAt(PushLeft(SetPhase(c, i, Leaving), i, SackOff), a)
  {
    hide Leftward, Rightward, Cyclic, GrantLast, Count, Total, Plain;
    var f := SetPhase(c, i, Leaving);
    var d := PushLeft(f, i, SackOff);
    PushLeftWords(f, i, SackOff, 0);
    PushLeftOrder(c, d, i, SackOff, a, a);
    LeavePlaces(f, d, a, i, SackOff);
  }

  /** Once its BBSY-negated is on its way to the arbiter the device is no longer active. */
  lemma SendFreeLeftKeeps(c: Core, a: int, i: nat)
    requires InvAt(c, a) && i < Devices(c) && c.phase[i] == Leaving
    ensures a == i && InvAt(PushLeft(SetPhase(c, i, Tail), i, BusyOff), -1)
  {
    hide Leftward, Rightward, Cyclic, GrantLast, Count, Total, Plain;
    var f := SetPhase(c, i, Tail);
    var d := PushLeft(f, i, BusyOff);
    PushLeftWords(f, i, BusyOff, 0);
    PushLeftOrder(c, d, i, BusyOff, a, -1);
    assert Places(f, -1);
    LeavePlaces(f, d, -1, i, BusyOff);
  }

  lemma LeavePlaces(f: Core, d: Core, a: int, i: nat, l: Letter)
    requires Shape(f) && i < Devices(f) && -1 <= a < Devices(f) && Places(f, a)
    requires Leftward(f.left, i) == [] && Plain(Rightward(f.right, i)) && d == PushLeft(f, i, l)
    requires a == i || a == -1
    requires forall t :: 0 <= t < Devices(f) && f.phase[t] == Tail ==> i <= t
    ensures Places(d, a)
  {
    forall x: nat | x >= i ensures Leftward(d.left, x) == Leftward(f.left, x) {
      PushLeftWords(f, i, l, x);
    }
    forall x | 0 <= x < i ensures Plain(Rightward(d.right, x)) {
      var p := RightSuffix(f.right, i, x);
    }
    forall x | NoGrantBeyond(f, x) ensures NoGrantBeyond(d, x) {
      forall k | x < k < Devices(d) && 0 <= k ensures GrantOff !in d.right[k] {
        assert GrantOff !in f.right[k];
      }
    }
  }

  lemma EndReleaseKeeps(c: Core, a: int, i: nat)
    requires InvAt(c, a) && i < Devices(c) && c.phase[i] == Tail
    ensures InvAt(SetPhase(SetBusy(c, i, false), i, Quiet), a)
  {
    hide Leftward, Rightward, Cyclic, GrantLast, Count, Total, Plain;
    var d := SetPhase(SetBusy(c, i, false), i, Quiet);
    assert d.left == c.left && d.right == c.right;
    assert Places(d, a);
  }
}
