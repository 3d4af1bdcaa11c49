/** Safety of the priority bus over every run of the chain: one master at a time. */
module ChainSafety {
  import opened Wrappers
  import opened Signals
  import opened PriorityBus
  import opened PriorityChain
  import opened BusStreams
  import opened ArbitrationCore
  import BusArbiter

  // From messages to letters

  function LeftLetter(m: Msg): seq<Letter> {
    if m.sig == BBSY then [if m.asserted then BusyOn else BusyOff]
    else if m.sig == SACK && !m.asserted then [SackOff] else []
  }

  function RightLetter(m: Msg): seq<Letter> {
    if m.sig == BBSY then [if m.asserted then BusyOn else BusyOff]
    else if m.sig == BG && !m.asserted then [GrantOff] else []
  }

  /** The letters in the queue of node `self` that travel towards the arbiter. */
  ghost function LeftWord(q: seq<Msg>, self: int): seq<Letter> {
    if q == [] then []
    else (if q[0].from == self - 1 then [] else LeftLetter(q[0])) + LeftWord(q[1..], self)
  }

  /** The letters in the queue of node `self` that travel away from the arbiter. */
  ghost function RightWord(q: seq<Msg>, self: int): seq<Letter> {
    if q == [] then []
    else (if q[0].from == self - 1 then RightLetter(q[0]) else []) + RightWord(q[1..], self)
  }

  function PhaseOf(d: Node): Phase {
    match d.pc
    case GrantRight => Hold
    case GrantSet => Hold
    case RelSackRight => Leaving
    case RelSackClear => Leaving
    case RelBbsyLeft => Leaving
    case RelBbsyRight => Tail
    case RelBbsyClear => Tail
    case _ => if d.p.isMaster then Hold else Quiet
  }

  ghost function Lefts(devs: seq<Node>): (r: Lanes)
    ensures |r| == |devs|
  {
    seq(|devs|, i requires 0 <= i < |devs| => LeftWord(devs[i].q, i))
  }

  ghost function Rights(devs: seq<Node>): (r: Lanes)
    ensures |r| == |devs|
  {
    seq(|devs|, i requires 0 <= i < |devs| => RightWord(devs[i].q, i))
  }

  ghost function Busys(devs: seq<Node>): (r: seq<bool>)
    ensures |r| == |devs|
  {
    seq(|devs|, i requires 0 <= i < |devs| => devs[i].p.bbsyAsserted)
  }

  ghost function Phases(devs: seq<Node>): (r: seq<Phase>)
    ensures |r| == |devs|
  {
    seq(|devs|, i requires 0 <= i < |devs| => PhaseOf(devs[i]))
  }

  ghost function Abs(s: Sys): Core {
    Core(!s.arb.sack, LeftWord(s.arbQ, ARBITER), Lefts(s.devs), Rights(s.devs), Busys(s.devs), Phases(s.devs))
  }

  lemma {:induction false} WordAppend(q: seq<Msg>, m: Msg, self: int)
    ensures LeftWord(q + [m], self) == LeftWord(q, self) + if m.from == self - 1 then [] else LeftLetter(m)
    ensures RightWord(q + [m], self) == RightWord(q, self) + if m.from == self - 1 then RightLetter(m) else []
  {
    if q == [] {
      assert (q + [m])[1..] == [];
    } else {
      assert (q + [m])[1..] == q[1..] + [m];
      WordAppend(q[1..], m, self);
    }
  }

  // The shape of a chain

  predicate Wired(s: Sys) {
    forall i :: 0 <= i < |s.devs| ==>
      var p := s.devs[i].p;
      p.left == Some(i - 1) && p.self == i && p.right == if i + 1 < |s.devs| then Some(i + 1) else None
  }

  /** What can wait in the queue of device `i` of `n`: messages from a neighbour, grants
      only from the arbiter's side, nothing of the NPR path. */
  predicate Deliverable(m: Msg, i: int, n: nat) {
    && ((m.from == i - 1 && i >= 0) || (m.from == i + 1 && i + 1 < n))
    && (m.sig == BG ==> m.from == i - 1)
    && m.sig != NPR && m.sig != NPG
  }

  predicate Traffic(s: Sys) {
    && (forall i, k :: 0 <= i < |s.devs| && 0 <= k < |s.devs[i].q| ==> Deliverable(s.devs[i].q[k], i, |s.devs|))
    && (forall k :: 0 <= k < |s.arbQ| ==> Deliverable(s.arbQ[k], ARBITER, |s.devs|))
    && !s.arb.outstandingNpg
    && (forall i :: 0 <= i < |s.devs| ==> !s.devs[i].p.nprIssued)
  }

  /** How a device's flags agree with what it is doing. */
  predicate Consistent(d: Node) {
    && (d.p.isMaster ==> d.p.sackAsserted && d.p.bbsyAsserted)
    && (d.pc == BrRight ==> !d.p.isMaster)
    && (d.pc == GrantRight || d.pc == GrantSet ==> d.p.sackAsserted && !d.p.bbsyAsserted && !d.p.isMaster)
    && (d.pc == RelSackRight || d.pc == RelSackClear ==> d.p.isMaster)
    && (d.pc == RelBbsyLeft || d.pc == RelBbsyRight || d.pc == RelBbsyClear ==> d.p.bbsyAsserted && !d.p.isMaster)
  }

  ghost predicate Inv(s: Sys) {
    && Wired(s) && Traffic(s)
    && (forall i :: 0 <= i < |s.devs| ==> Consistent(s.devs[i]))
    && exists a :: InvAt(Abs(s), a)
  }

  // How steps look through the abstraction

  lemma AbsNode(s: Sys, i: nat, d: Node)
    requires i < |s.devs|
    ensures Abs(s.(devs := s.devs[i := d])) ==
              Abs(s).(left := Abs(s).left[i := LeftWord(d.q, i)], right := Abs(s).right[i := RightWord(d.q, i)],
                      busy := Abs(s).busy[i := d.p.bbsyAsserted], phase := Abs(s).phase[i := PhaseOf(d)])
  {
    var c := Abs(s);
    var devs := s.devs[i := d];
    assert Lefts(devs) == c.left[i := LeftWord(d.q, i)];
    assert Rights(devs) == c.right[i := RightWord(d.q, i)];
    assert Busys(devs) == c.busy[i := d.p.bbsyAsserted];
    assert Phases(devs) == c.phase[i := PhaseOf(d)];
  }

  /** The letter a written message carries, if any, goes to the back of the neighbour's lane. */
  ghost function AbsWrite(c: Core, i: nat, out: Option<Sent>): Core
    requires Shape(c) && i < Devices(c)
  {
    if out.None? then c
    else if out.value.to == Left then
      (if LeftLetter(out.value.msg) == [] then c else PushLeft(c, i, LeftLetter(out.value.msg)[0]))
    else if out.value.to == Right then
      (if RightLetter(out.value.msg) == [] then c else PushRight(c, i, RightLetter(out.value.msg)[0]))
    else c
  }

  lemma AbsDeliver(s: Sys, i: nat, out: Option<Sent>)
    requires i < |s.devs| && (out.Some? ==> out.value.msg.from == i)
    ensures Abs(Deliver(s, i, out)) == AbsWrite(Abs(s), i, out)
  {
    if out.Some? && out.value.to == Left {
      AbsDeliverLeft(s, i, out.value.msg);
    } else if out.Some? && out.value.to == Right && i + 1 < |s.devs| {
      AbsDeliverRight(s, i, out.value.msg);
    }
  }

  lemma AbsDeliverLeft(s: Sys, i: nat, m: Msg)
    requires i < |s.devs| && m.from == i
    ensures Abs(Deliver(s, i, Some(Sent(Left, m)))) ==
              if LeftLetter(m) == [] then Abs(s) else PushLeft(Abs(s), i, LeftLetter(m)[0])
  {
    if i > 0 {
      AbsDeliverInside(s, i, m);
    } else {
      WordAppend(s.arbQ, m, ARBITER);
      assert LeftWord(s.arbQ, ARBITER) + [] == LeftWord(s.arbQ, ARBITER);
    }
  }

  lemma AbsDeliverInside(s: Sys, i: nat, m: Msg)
    requires 0 < i < |s.devs| && m.from == i
    ensures Abs(Deliver(s, i, Some(Sent(Left, m)))) ==
              if LeftLetter(m) == [] then Abs(s) else PushLeft(Abs(s), i, LeftLetter(m)[0])
  {
    hide LeftWord, RightWord;
    var d := s.devs[i - 1];
    WordAppend(d.q, m, i - 1);
    AbsNode(s, i - 1, d.(q := d.q + [m]));
    AbsAppend(Abs(s), i - 1, LeftLetter(m), []);
  }

  lemma AbsDeliverRight(s: Sys, i: nat, m: Msg)
    requires i + 1 < |s.devs| && m.from == i
    ensures Abs(Deliver(s, i, Some(Sent(Right, m)))) ==
              if RightLetter(m) == [] then Abs(s) else PushRight(Abs(s), i, RightLetter(m)[0])
  {
    hide LeftWord, RightWord;
    var d := s.devs[i + 1];
    WordAppend(d.q, m, i + 1);
    AbsNode(s, i + 1, d.(q := d.q + [m]));
    AbsAppend(Abs(s), i + 1, [], RightLetter(m));
  }

  /** Writing back what a lane or flag already holds changes nothing. */
  lemma AbsAppend(c: Core, j: nat, l: seq<Letter>, r: seq<Letter>)
    requires Shape(c) && j < Devices(c)
    ensures l == [] ==> c.left[j := c.left[j] + l] == c.left
    ensures r == [] ==> c.right[j := c.right[j] + r] == c.right
    ensures c.busy[j := c.busy[j]] == c.busy && c.phase[j := c.phase[j]] == c.phase
  {
    assert l == [] ==> c.left[j] + l == c.left[j];
    assert r == [] ==> c.right[j] + r == c.right[j];
  }

  lemma AbsFire(s: Sys, i: nat, x: Micro, q: seq<Msg>)
    requires i < |s.devs| && (x.out.Some? ==> x.out.value.msg.from == i)
    ensures var c := Abs(s);
            Abs(Fire(s, i, x, q)) ==
              AbsWrite(c.(left := c.left[i := LeftWord(q, i)], right := c.right[i := RightWord(q, i)],
                          busy := c.busy[i := x.p.bbsyAsserted], phase := c.phase[i := PhaseOf(Node(x.p, x.pc, q))]),
                       i, x.out)
  {
    AbsNode(s, i, Node(x.p, x.pc, q));
    AbsDeliver(s.(devs := s.devs[i := Node(x.p, x.pc, q)]), i, x.out);
  }

  /** A step that leaves the queue alone. */
  lemma AbsFireHere(s: Sys, i: nat, x: Micro)
    requires i < |s.devs| && (x.out.Some? ==> x.out.value.msg.from == i)
    ensures var c := Abs(s);
            Abs(Fire(s, i, x, s.devs[i].q)) ==
              AbsWrite(c.(busy := c.busy[i := x.p.bbsyAsserted],
                          phase := c.phase[i := PhaseOf(Node(x.p, x.pc, s.devs[i].q))]), i, x.out)
  {
    var c := Abs(s);
    AbsFire(s, i, x, s.devs[i].q);
    assert c.left[i := LeftWord(s.devs[i].q, i)] == c.left;
    assert c.right[i := RightWord(s.devs[i].q, i)] == c.right;
  }

  // Every step keeps the invariant: the arbitration part

  lemma AbsRead(s: Sys, i: nat)
    requires Wired(s) && Enabled(s, Read(i))
    ensures var c := Abs(s); var d := s.devs[i]; var x := Receive(d.p, d.q[0]);
            Abs(Step(s, Read(i))) ==
              AbsWrite(c.(left := c.left[i := LeftWord(d.q[1..], i)], right := c.right[i := RightWord(d.q[1..], i)],
                          busy := c.busy[i := x.p.bbsyAsserted],
                          phase := c.phase[i := PhaseOf(Node(x.p, x.pc, d.q[1..]))]),
                       i, x.out)
  {
    AbsFire(s, i, Receive(s.devs[i].p, s.devs[i].q[0]), s.devs[i].q[1..]);
  }

  /** A message that carries no letter leaves the protocol state alone. */
  lemma ReadPlain(s: Sys, i: nat)
    requires Wired(s) && Traffic(s) && Enabled(s, Read(i))
    requires var m := s.devs[i].q[0]; (if m.from == i - 1 then RightLetter(m) else LeftLetter(m)) == []
    ensures Abs(Step(s, Read(i))) == Abs(s)
  {
    var d := s.devs[i];
    var c := Abs(s);
    PlainReceive(s, i);
    AbsRead(s, i);
    assert LeftWord(d.q[1..], i) == c.left[i] && RightWord(d.q[1..], i) == c.right[i];
    AbsAppend(c, i, [], []);
    assert c.left[i := c.left[i]] == c.left && c.right[i := c.right[i]] == c.right;
  }

  lemma PlainReceive(s: Sys, i: nat)
    requires Wired(s) && Traffic(s) && Enabled(s, Read(i))
    requires var m := s.devs[i].q[0]; (if m.from == i - 1 then RightLetter(m) else LeftLetter(m)) == []
    ensures var x := Receive(s.devs[i].p, s.devs[i].q[0]);
            x.p.bbsyAsserted == s.devs[i].p.bbsyAsserted && x.p.isMaster == s.devs[i].p.isMaster && x.pc == Idle
            && forall c :: Shape(c) && i < Devices(c) ==> AbsWrite(c, i, x.out) == c
  {
    assert Deliverable(s.devs[i].q[0], i, |s.devs|);
  }

  /** A letter from the arbiter's side is passed on, used up, or makes the device master. */
  lemma ReadFromLeft(s: Sys, i: nat)
    requires Wired(s) && Enabled(s, Read(i))
    requires s.devs[i].q[0].from == i - 1 && RightLetter(s.devs[i].q[0]) != []
    ensures var c := Abs(s); var m := s.devs[i].q[0]; var p := s.devs[i].p;
            c.right[i] != [] && c.right[i][0] == RightLetter(m)[0]
            && Abs(Step(s, Read(i))) == if m.sig != BG || !p.sackAsserted then MoveRight(c, i)
                                        else if p.bbsyAsserted then DropRight(c, i)
                                        else TakeGrant(c, i)
  {
    hide Step, Receive, AbsWrite, PushLeft, MoveRight, DropRight, TakeGrant;
    var d := s.devs[i];
    var m := d.q[0];
    var c := Abs(s);
    AbsRead(s, i);
    assert c.right[i] == RightLetter(m) + RightWord(d.q[1..], i);
    assert c.right[i][1..] == RightWord(d.q[1..], i);
    assert LeftWord(d.q[1..], i) == c.left[i];
    assert c.left[i := c.left[i]] == c.left;
    LeftReceive(s, i);
    var x := Receive(d.p, m);
    LeftMoves(c, i, x.p.bbsyAsserted, PhaseOf(Node(x.p, x.pc, d.q[1..])));
  }

  /** The three moves, spelt out as field updates. */
  lemma LeftMoves(c: Core, i: nat, b: bool, ph: Phase)
    requires Shape(c) && i < Devices(c) && c.right[i] != []
    ensures var e := c.(right := c.right[i := c.right[i][1..]], busy := c.busy[i := b], phase := c.phase[i := ph]);
            && (ph == c.phase[i] && b == Seen(c.busy[i], c.right[i][0]) ==>
                  PushRight(e, i, c.right[i][0]) == MoveRight(c, i))
            && (ph == c.phase[i] && b == c.busy[i] ==> e == DropRight(c, i))
            && (ph == Hold && b == c.busy[i] ==> PushLeft(e, i, BusyOn) == TakeGrant(c, i))
  {
    AbsAppend(c, i, [], []);
  }

  lemma LeftReceive(s: Sys, i: nat)
    requires Wired(s) && Enabled(s, Read(i))
    requires s.devs[i].q[0].from == i - 1 && RightLetter(s.devs[i].q[0]) != []
    ensures var m := s.devs[i].q[0]; var p := s.devs[i].p; var x := Receive(p, m);
            var granted := m.sig == BG && p.sackAsserted && !p.bbsyAsserted;
            x.p.bbsyAsserted == Seen(p.bbsyAsserted, RightLetter(m)[0])
            && (forall q :: PhaseOf(Node(x.p, x.pc, q)) == if granted then Hold else PhaseOf(s.devs[i]))
            && forall c :: Shape(c) && i < Devices(c) && Devices(c) == |s.devs| ==>
                 AbsWrite(c, i, x.out) == if granted then PushLeft(c, i, BusyOn)
                                          else if m.sig == BG && p.sackAsserted then c
                                          else PushRight(c, i, RightLetter(m)[0])
  {
  }

  lemma RightReceive(s: Sys, i: nat)
    requires Wired(s) && Traffic(s) && Enabled(s, Read(i))
    requires s.devs[i].q[0].from != i - 1 && LeftLetter(s.devs[i].q[0]) != []
    ensures var m := s.devs[i].q[0]; var p := s.devs[i].p; var x := Receive(p, m);
            x.p.bbsyAsserted == Seen(p.bbsyAsserted, LeftLetter(m)[0])
            && (forall q :: PhaseOf(Node(x.p, x.pc, q)) == PhaseOf(s.devs[i]))
            && forall c :: Shape(c) && i < Devices(c) ==> AbsWrite(c, i, x.out) == PushLeft(c, i, LeftLetter(m)[0])
  {
    assert Deliverable(s.devs[i].q[0], i, |s.devs|);
  }

  lemma LeftWordHead(q: seq<Msg>, i: nat)
    requires q != [] && q[0].from != i - 1 && LeftLetter(q[0]) != []
    ensures LeftWord(q, i) != [] && LeftWord(q, i)[0] == LeftLetter(q[0])[0]
    ensures LeftWord(q, i)[1..] == LeftWord(q[1..], i) && RightWord(q[1..], i) == RightWord(q, i)
  {
    var l := LeftLetter(q[0])[0];
    assert LeftLetter(q[0]) == [l];
    assert RightWord(q, i) == [] + RightWord(q[1..], i);
  }

  lemma ReadFromRight(s: Sys, i: nat)
    requires Wired(s) && Traffic(s) && Enabled(s, Read(i))
    requires s.devs[i].q[0].from != i - 1 && LeftLetter(s.devs[i].q[0]) != []
    ensures var c := Abs(s);
            c.left[i] != [] && c.left[i][0] == LeftLetter(s.devs[i].q[0])[0]
            && Abs(Step(s, Read(i))) == MoveLeft(c, i)
  {
    var d := s.devs[i];
    var m := d.q[0];
    var c := Abs(s);
    hide Step, Receive, Deliverable, Traffic, AbsWrite, PushLeft, MoveLeft, Seen, LeftWord, RightWord;
    RightReceive(s, i);
    AbsRead(s, i);
    LeftWordHead(d.q, i);
    var x := Receive(d.p, m);
    RightMove(c, i, x.p.bbsyAsserted, PhaseOf(Node(x.p, x.pc, d.q[1..])));
  }

  lemma RightMove(c: Core, i: nat, b: bool, ph: Phase)
    requires Shape(c) && i < Devices(c) && c.left[i] != []
    requires ph == c.phase[i] && b == Seen(c.busy[i], c.left[i][0])
    ensures PushLeft(c.(left := c.left[i := c.left[i][1..]], right := c.right[i := c.right[i]], busy := c.busy[i := b],
                        phase := c.phase[i := ph]), i, c.left[i][0]) == MoveLeft(c, i)
  {
    AbsAppend(c, i, [], []);
    assert c.right[i := c.right[i]] == c.right;
  }

  lemma ReadKeepsOrder(s: Sys, i: nat, a: int) returns (b: int)
    requires Enabled(s, Read(i)) && Wired(s) && Traffic(s) && InvAt(Abs(s), a)
    ensures s.devs[i].q[0].sig == BBSY ==> !s.devs[i].p.isMaster
    ensures InvAt(Abs(Step(s, Read(i))), b)
  {
    hide InvAt, LeftWord, RightWord, Receive;
    var d := s.devs[i];
    var m := d.q[0];
    var c := Abs(s);
    b := a;
    if m.from == i - 1 {
      if RightLetter(m) == [] {
        ReadPlain(s, i);
      } else {
        ReadFromLeft(s, i);
        if m.sig != BG || !d.p.sackAsserted {
          MoveRightKeeps(c, a, i);
        } else if d.p.bbsyAsserted {
          DropRightKeeps(c, a, i);
        } else {
          TakeGrantKeeps(c, a, i);
          b := i;
        }
      }
    } else if LeftLetter(m) == [] {
      ReadPlain(s, i);
    } else {
      ReadFromRight(s, i);
      MoveLeftKeeps(c, a, i);
    }
  }

  lemma RequestKeepsOrder(s: Sys, i: nat)
    requires Wired(s) && Enabled(s, StartRequest(i))
    ensures Abs(Step(s, StartRequest(i))) == Abs(s)
  {
    var x := Request(s.devs[i].p);
    AbsFireHere(s, i, x);
    AbsAppend(Abs(s), i, [], []);
    assert PhaseOf(Node(x.p, x.pc, s.devs[i].q)) == PhaseOf(s.devs[i]);
  }

  lemma ReleaseKeepsOrder(s: Sys, i: nat, a: int)
    requires Wired(s) && Enabled(s, StartRelease(i)) && Consistent(s.devs[i]) && InvAt(Abs(s), a)
    ensures InvAt(Abs(Step(s, StartRelease(i))), a)
  {
    ReleaseMove(s, i);
    StartReleaseKeeps(Abs(s), a, i);
  }

  lemma ReleaseMove(s: Sys, i: nat)
    requires Wired(s) && Enabled(s, StartRelease(i)) && Consistent(s.devs[i])
    ensures Abs(s).phase[i] == Hold
    ensures Abs(Step(s, StartRelease(i))) == PushLeft(SetPhase(Abs(s), i, Leaving), i, SackOff)
  {
    AbsFireHere(s, i, Release(s.devs[i].p));
    AbsAppend(Abs(s), i, [], []);
  }

  /** What each remaining step of an action is to the protocol. */
  ghost function GoOnMove(c: Core, i: nat, pc: Pc): Core
    requires Shape(c) && i < Devices(c)
  {
    match pc
    case GrantRight => SendRight(c, i, BusyOn)
    case GrantSet => SetBusy(c, i, true)
    case RelBbsyLeft => PushLeft(SetPhase(c, i, Tail), i, BusyOff)
    case RelBbsyRight => SendRight(c, i, BusyOff)
    case RelBbsyClear => SetPhase(SetBusy(c, i, false), i, Quiet)
    case _ => c
  }

  lemma GoOnIsMove(s: Sys, i: nat)
    requires Wired(s) && Enabled(s, GoOn(i)) && Consistent(s.devs[i])
    ensures Abs(Step(s, GoOn(i))) == GoOnMove(Abs(s), i, s.devs[i].pc)
  {
    hide LeftWord, RightWord;
    var x := Continue(s.devs[i].p, s.devs[i].pc);
    AbsFireHere(s, i, x);
    GoOnLocal(s.devs[i], x, s.devs[i].q);
    AbsAppend(Abs(s), i, [], []);
  }

  lemma GoOnLocal(d: Node, x: Micro, q: seq<Msg>)
    requires d.pc != Idle && Consistent(d) && x == Continue(d.p, d.pc)
    ensures x.p.bbsyAsserted ==
            if d.pc == GrantSet then true else if d.pc == RelBbsyClear then false else d.p.bbsyAsserted
    ensures PhaseOf(Node(x.p, x.pc, q)) ==
              if d.pc == RelBbsyLeft then Tail else if d.pc == RelBbsyClear then Quiet else PhaseOf(d)
  {
  }

  lemma GoOnKeepsOrder(s: Sys, i: nat, a: int) returns (b: int)
    requires Wired(s) && Enabled(s, GoOn(i)) && Consistent(s.devs[i]) && InvAt(Abs(s), a)
    ensures InvAt(Abs(Step(s, GoOn(i))), b)
  {
    hide InvAt, LeftWord, RightWord, Continue;
    var c := Abs(s);
    assert c.phase[i] == PhaseOf(s.devs[i]);
    GoOnIsMove(s, i);
    b := a;
    match s.devs[i].pc {
      case GrantRight => SendBusyRightKeeps(c, a, i);
      case GrantSet => SetBusyKeeps(c, a, i);
      case RelBbsyLeft => SendFreeLeftKeeps(c, a, i); b := -1;
      case RelBbsyRight => SendFreeRightKeeps(c, a, i);
      case RelBbsyClear => EndReleaseKeeps(c, a, i);
      case _ =>
    }
  }

  /** What the arbiter's reaction to a message is to the protocol. */
  ghost function ArbMove(c: Core, granted: bool, m: Msg): Core {
    if m.sig == SACK && m.asserted && c.idle then (if granted then ArbGrant(c) else ArbHold(c))
    else if LeftLetter(m) != [] && c.arb != [] then ArbPop(c)
    else c
  }

  /** Taking a message out of the arbiter's queue takes its letter, if any, off the bus. */
  lemma ArbTakes(s: Sys, arb: BusArbiter.Arb)
    requires s.arbQ != [] && s.arbQ[0].from != ARBITER - 1
    ensures var c := Abs(s); var l := LeftLetter(s.arbQ[0]);
            |l| <= |c.arb| && |l| <= 1 && (l != [] ==> c.arb[0] == l[0]) && Devices(c) == |s.devs|
            && Abs(s.(arb := arb, arbQ := s.arbQ[1..])) == c.(idle := !arb.sack, arb := c.arb[|l|..])
            && c.idle == !s.arb.sack && |c.right| == |s.devs|
  {
    var l := LeftLetter(s.arbQ[0]);
    var rest := LeftWord(s.arbQ[1..], ARBITER);
    assert Abs(s).arb == l + rest;
    assert (l + rest)[|l|..] == rest;
  }

  lemma ArbIsMove(s: Sys)
    requires Traffic(s) && Enabled(s, ArbRead)
    ensures Abs(Step(s, ArbRead)) == ArbMove(Abs(s), s.arb.outstandingBg, s.arbQ[0])
    ensures LeftLetter(s.arbQ[0]) != [] ==> Abs(s).arb != []
  {
    hide LeftWord, RightWord, Abs;
    var m := s.arbQ[0];
    assert Deliverable(m, ARBITER, |s.devs|);
    var r := BusArbiter.Receive(s.arb, m);
    var t := s.(arb := r.arb, arbQ := s.arbQ[1..]);
    ArbTakes(s, r.arb);
    if r.out.Some? && |s.devs| > 0 {
      ArbDelivers(t, r.out.value);
    }
  }

  lemma ArbDelivers(t: Sys, m: Msg)
    requires |t.devs| > 0 && m.from == ARBITER
    ensures Abs(t.(devs := t.devs[0 := t.devs[0].(q := t.devs[0].q + [m])])) ==
              Abs(t).(right := Abs(t).right[0 := Abs(t).right[0] + RightLetter(m)])
    ensures RightLetter(m) == [] ==> Abs(t).right[0 := Abs(t).right[0] + RightLetter(m)] == Abs(t).right
  {
    var d := t.devs[0];
    WordAppend(d.q, m, 0);
    AbsNode(t, 0, d.(q := d.q + [m]));
    AbsAppend(Abs(t), 0, [], RightLetter(m));
    assert Abs(t).left[0 := LeftWord(d.q, 0)] == Abs(t).left;
    assert LeftWord(d.q, 0) + [] == LeftWord(d.q, 0);
  }

  lemma ArbKeepsOrder(s: Sys, a: int)
    requires Traffic(s) && Enabled(s, ArbRead) && InvAt(Abs(s), a)
    ensures InvAt(Abs(Step(s, ArbRead)), a)
  {
    hide InvAt, LeftWord;
    var c := Abs(s);
    var m := s.arbQ[0];
    ArbIsMove(s);
    if m.sig == SACK && m.asserted && c.idle {
      if s.arb.outstandingBg {
        ArbGrantKeeps(c, a);
      } else {
        ArbHoldKeeps(c, a);
      }
    } else if LeftLetter(m) != [] {
      ArbPopKeeps(c, a);
    }
  }

  lemma MainKeepsOrder(s: Sys, i: nat, p: Pr)
    requires i < |s.devs| && p == s.devs[i].p.(reqMaster := p.reqMaster, relMaster := p.relMaster)
    ensures Abs(s.(devs := s.devs[i := s.devs[i].(p := p)])) == Abs(s)
  {
    AbsNode(s, i, s.devs[i].(p := p));
    AbsAppend(Abs(s), i, [], []);
    assert Abs(s).left[i := LeftWord(s.devs[i].q, i)] == Abs(s).left;
    assert Abs(s).right[i := RightWord(s.devs[i].q, i)] == Abs(s).right;
  }

  // Every step keeps the invariant: wiring, traffic and the devices' own flags

  ghost predicate Sound(s: Sys) {
    Wired(s) && Traffic(s) && forall i :: 0 <= i < |s.devs| ==> Consistent(s.devs[i])
  }

  lemma InvSound(s: Sys)
    requires Inv(s)
    ensures Sound(s)
  {
  }

  predicate SoundWrite(out: Option<Sent>, i: int, n: nat) {
    out.Some? ==>
      && out.value.msg.from == i && out.value.msg.sig != NPR && out.value.msg.sig != NPG
      && ((out.value.to == Left && out.value.msg.sig != BG) || (out.value.to == Right && i + 1 < n))
  }

  predicate SoundStep(p: Pr, x: Micro, n: nat) {
    && x.p.left == p.left && x.p.self == p.self && x.p.right == p.right && !x.p.nprIssued
    && Consistent(Node(x.p, x.pc, []))
    && SoundWrite(x.out, p.self, n)
  }

  lemma FireKeepsSound(s: Sys, i: nat, x: Micro, q: seq<Msg>)
    requires Sound(s) && i < |s.devs| && SoundStep(s.devs[i].p, x, |s.devs|)
    requires forall k :: 0 <= k < |q| ==> Deliverable(q[k], i, |s.devs|)
    ensures Sound(Fire(s, i, x, q))
  {
    var t := s.(devs := s.devs[i := Node(x.p, x.pc, q)]);
    assert Sound(t);
    DeliverKeepsSound(t, i, x.out);
  }

  lemma DeliverKeepsSound(s: Sys, i: nat, out: Option<Sent>)
    requires Sound(s) && i < |s.devs| && SoundWrite(out, i, |s.devs|)
    ensures Sound(Deliver(s, i, out))
  {
    if out.Some? {
      var m := out.value.msg;
      if out.value.to == Left && i > 0 {
        assert Deliverable(m, i - 1, |s.devs|);
      } else if out.value.to == Left {
        assert Deliverable(m, ARBITER, |s.devs|);
      } else {
        assert Deliverable(m, i + 1, |s.devs|);
      }
    }
  }

  lemma ReceiveIsSound(s: Sys, i: nat)
    requires Sound(s) && Enabled(s, Read(i))
    requires s.devs[i].q[0].sig == BBSY ==> !s.devs[i].p.isMaster
    ensures SoundStep(s.devs[i].p, Receive(s.devs[i].p, s.devs[i].q[0]), |s.devs|)
  {
    assert Deliverable(s.devs[i].q[0], i, |s.devs|);
  }

  lemma ActionIsSound(d: Node, i: nat, n: nat)
    requires i < n && Consistent(d) && !d.p.nprIssued
    requires d.p.left == Some(i - 1) && d.p.self == i && d.p.right == if i + 1 < n then Some(i + 1) else None
    ensures !d.p.isMaster ==> SoundStep(d.p, Request(d.p), n)
    ensures d.p.isMaster ==> SoundStep(d.p, PriorityBus.Release(d.p), n)
    ensures d.pc != Idle ==> SoundStep(d.p, Continue(d.p, d.pc), n)
  {
  }

  lemma MainKeepsSound(s: Sys, i: nat, p: Pr)
    requires Sound(s) && i < |s.devs| && p == s.devs[i].p.(reqMaster := p.reqMaster, relMaster := p.relMaster)
    ensures Sound(s.(devs := s.devs[i := s.devs[i].(p := p)]))
  {
  }

  lemma StepKeepsSound(s: Sys, e: Event)
    requires Sound(s) && Enabled(s, e)
    requires e.Read? && s.devs[e.i].q[0].sig == BBSY ==> !s.devs[e.i].p.isMaster
    ensures Sound(Step(s, e))
  {
    if e.ArbRead? {
      ArbKeepsSound(s);
    } else {
      var d := s.devs[e.i];
      ActionIsSound(d, e.i, |s.devs|);
      match e {
        case StartRequest(i) => FireKeepsSound(s, i, Request(d.p), d.q);
        case StartRelease(i) => FireKeepsSound(s, i, PriorityBus.Release(d.p), d.q);
        case Read(i) =>
          ReceiveIsSound(s, i);
          FireKeepsSound(s, i, Receive(d.p, d.q[0]), d.q[1..]);
        case GoOn(i) => FireKeepsSound(s, i, Continue(d.p, d.pc), d.q);
        case MainRequest(i) => MainKeepsSound(s, i, d.p.(reqMaster := true));
        case MainRelease(i) => MainKeepsSound(s, i, d.p.(relMaster := true));
      }
    }
  }

  lemma ArbKeepsSound(s: Sys)
    requires Sound(s) && Enabled(s, ArbRead)
    ensures Sound(Step(s, ArbRead))
  {
    var r := BusArbiter.Receive(s.arb, s.arbQ[0]);
    assert Deliverable(s.arbQ[0], ARBITER, |s.devs|);
    assert r.out.Some? ==> Deliverable(r.out.value, 0, |s.devs|);
  }

  // The invariant over every run

  lemma InitKeeps(n: nat)
    ensures Inv(Init(n))
  {
    hide InvAt;
    var c := Abs(Init(n));
    assert forall k :: 0 <= k < n ==> c.left[k] == [] && c.right[k] == [] && c.phase[k] == Quiet;
    EmptyCore(c);
    assert InvAt(c, -1);
  }

  /** A bus with nothing on it and a single permission, at the arbiter. */
  lemma EmptyCore(c: Core)
    requires Shape(c) && c.idle && c.arb == []
    requires forall k :: 0 <= k < Devices(c) ==> c.left[k] == [] && c.right[k] == [] && c.phase[k] == Quiet
    ensures InvAt(c, -1)
  {
    TotalZero(c.left, SackOff);
    TotalZero(c.right, GrantOff);
    EmptyRight(c.right, Devices(c) - 1);
    forall x: nat ensures Leftward(c.left, x) == [] {
      LeftEmpty(c.left, x);
    }
  }

  lemma {:induction false} LeftEmpty(ws: Lanes, x: nat)
    requires forall k :: x <= k < |ws| ==> ws[k] == []
    ensures Leftward(ws, x) == []
    decreases |ws| - x
  {
    if x < |ws| {
      LeftEmpty(ws, x + 1);
    }
  }

  lemma StepKeeps(s: Sys, e: Event)
    requires Inv(s) && Enabled(s, e)
    ensures Inv(Step(s, e))
  {
    hide InvAt;
    var a :| InvAt(Abs(s), a);
    match e {
      case MainRequest(i) => MainKeepsOrder(s, i, s.devs[i].p.(reqMaster := true));
      case MainRelease(i) => MainKeepsOrder(s, i, s.devs[i].p.(relMaster := true));
      case StartRequest(i) => RequestKeepsOrder(s, i);
      case StartRelease(i) => ReleaseKeepsOrder(s, i, a);
      case Read(i) => var b := ReadKeepsOrder(s, i, a);
      case GoOn(i) => var b := GoOnKeepsOrder(s, i, a);
      case ArbRead => ArbKeepsOrder(s, a);
    }
    StepKeepsSound(s, e);
  }

  lemma {:induction false} RunKeeps(s: Sys, es: seq<Event>, t: Sys)
    requires Inv(s) && IsRun(s, es, t)
    ensures Inv(t)
    decreases |es|
  {
    if es != [] {
      StepKeeps(s, es[0]);
      RunKeeps(Step(s, es[0]), es[1..], t);
    }
  }

  // What the invariant says

  lemma OneMaster(s: Sys, i: nat, j: nat)
    requires Inv(s) && i < |s.devs| && j < |s.devs| && s.devs[i].p.isMaster && s.devs[j].p.isMaster
    ensures i == j
  {
    hide Leftward, Rightward, Cyclic, GrantLast, Count, Total, Plain, LeftWord, RightWord, Traffic, Wired;
    var a :| InvAt(Abs(s), a);
    assert Consistent(s.devs[i]) && Consistent(s.devs[j]);
    assert Abs(s).phase[i] == PhaseOf(s.devs[i]) && Abs(s).phase[j] == PhaseOf(s.devs[j]);
  }

  /** At most one device is master in every state of every run, whatever the number of
      devices and however their single writes are interleaved. */
  lemma MutualExclusion(n: nat, es: seq<Event>, t: Sys)
    requires IsRun(Init(n), es, t)
    ensures forall i, j :: 0 <= i < j < |t.devs| ==> !(t.devs[i].p.isMaster && t.devs[j].p.isMaster)
  {
    InitKeeps(n);
    RunKeeps(Init(n), es, t);
    forall i, j | 0 <= i < j < |t.devs| ensures !(t.devs[i].p.isMaster && t.devs[j].p.isMaster) {
      if t.devs[i].p.isMaster && t.devs[j].p.isMaster {
        OneMaster(t, i, j);
      }
    }
  }

  /** A master keeps seeing its own BBSY and SACK, so none of the early returns of
      `negate_sack` and `negate_bbsy` is ever taken by a release. */
  lemma MasterSeesItself(n: nat, es: seq<Event>, t: Sys, i: nat)
    requires IsRun(Init(n), es, t) && i < |t.devs|
    ensures t.devs[i].p.isMaster ==> t.devs[i].p.bbsyAsserted && t.devs[i].p.sackAsserted
    ensures t.devs[i].pc == RelSackClear ==> Continue(t.devs[i].p, RelSackClear).pc == RelBbsyLeft
  {
    InitKeeps(n);
    RunKeeps(Init(n), es, t);
    assert Consistent(t.devs[i]);
  }

  /** Hence a release that runs through leaves no trace of mastership: in particular the
      request to release is always withdrawn. */
  lemma ReleaseCompletes(n: nat, es: seq<Event>, t: Sys, i: nat)
    requires IsRun(Init(n), es, t) && i < |t.devs| && Enabled(t, StartRelease(i))
    ensures var e := Finish(PriorityBus.Release(t.devs[i].p));
            e.p == t.devs[i].p.(sackAsserted := false, bbsyAsserted := false,
                                isMaster := false, reqMaster := false, relMaster := false)
            && e.out == Written(Write(t.devs[i].p, Left, SACK, false))
                        + Written(Write(t.devs[i].p, Right, SACK, false))
                        + Written(Write(t.devs[i].p, Left, BBSY, false))
                        + Written(Write(t.devs[i].p, Right, BBSY, false))
  {
    MasterSeesItself(n, es, t, i);
    FinishRelease(t.devs[i].p);
  }
}
