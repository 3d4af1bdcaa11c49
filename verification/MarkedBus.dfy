/** The bus with everything on it that leads to a mastership: the abstraction of `ChainSafety`
    with the requests, acknowledgements and grants added as the letter `Ask`. */
module MarkedBus {
  import opened Wrappers
  import opened Signals
  import opened PriorityBus
  import opened PriorityChain
  import opened BusStreams
  import opened ArbitrationCore
  import opened ChainSafety
  import BusArbiter

  function LeftMark(m: Msg): seq<Letter> {
    if m.sig == BR || (m.sig == SACK && m.asserted) then [Ask] else LeftLetter(m)
  }

  function RightMark(m: Msg): seq<Letter> {
    if m.sig == BG && m.asserted then [Ask] else RightLetter(m)
  }

  ghost function LeftMarks(q: seq<Msg>, self: int): seq<Letter> {
    if q == [] then []
    else (if q[0].from == self - 1 then [] else LeftMark(q[0])) + LeftMarks(q[1..], self)
  }

  ghost function RightMarks(q: seq<Msg>, self: int): seq<Letter> {
    if q == [] then []
    else (if q[0].from == self - 1 then RightMark(q[0]) else []) + RightMarks(q[1..], self)
  }

  ghost function MarkedLefts(devs: seq<Node>): (r: Lanes)
    ensures |r| == |devs|
  {
    seq(|devs|, i requires 0 <= i < |devs| => LeftMarks(devs[i].q, i))
  }

  ghost function MarkedRights(devs: seq<Node>): (r: Lanes)
    ensures |r| == |devs|
  {
    seq(|devs|, i requires 0 <= i < |devs| => RightMarks(devs[i].q, i))
  }

  ghost function Full(s: Sys): Core {
    Core(!s.arb.sack, LeftMarks(s.arbQ, ARBITER), MarkedLefts(s.devs), MarkedRights(s.devs),
         Busys(s.devs), Phases(s.devs))
  }

  // The two abstractions agree but for `Ask`

  ghost function Strip(w: seq<Letter>): seq<Letter> {
    if w == [] then [] else (if w[0] == Ask then [] else [w[0]]) + Strip(w[1..])
  }

  lemma {:induction false} StripConcat(u: seq<Letter>, v: seq<Letter>)
    ensures Strip(u + v) == Strip(u) + Strip(v)
  {
    if u == [] {
      assert u + v == v;
    } else {
      assert (u + v)[1..] == u[1..] + v;
      StripConcat(u[1..], v);
    }
  }

  lemma StripOne(l: Letter)
    ensures Strip([l]) == if l == Ask then [] else [l]
  {
    assert [l][1..] == [];
  }

  lemma StripMark(m: Msg)
    ensures Strip(LeftMark(m)) == LeftLetter(m) && Strip(RightMark(m)) == RightLetter(m)
  {
    forall l: Letter ensures Strip([l]) == if l == Ask then [] else [l] {
      StripOne(l);
    }
  }

  lemma {:induction false} StripMarks(q: seq<Msg>, self: int)
    ensures Strip(LeftMarks(q, self)) == LeftWord(q, self) && Strip(RightMarks(q, self)) == RightWord(q, self)
  {
    if q != [] {
      var l := if q[0].from == self - 1 then [] else LeftMark(q[0]);
      var r := if q[0].from == self - 1 then RightMark(q[0]) else [];
      StripMark(q[0]);
      StripConcat(l, LeftMarks(q[1..], self));
      StripConcat(r, RightMarks(q[1..], self));
      StripMarks(q[1..], self);
    }
  }

  lemma {:induction false} StripLeftward(ws: Lanes, vs: Lanes, x: nat)
    requires |ws| == |vs| && forall k :: 0 <= k < |ws| ==> Strip(ws[k]) == vs[k]
    ensures Strip(Leftward(ws, x)) == Leftward(vs, x)
    decreases |ws| - x
  {
    if x < |ws| {
      StripConcat(ws[x], Leftward(ws, x + 1));
      StripLeftward(ws, vs, x + 1);
    }
  }

  lemma {:induction false} StripMember(w: seq<Letter>, l: Letter)
    requires l != Ask
    ensures l in w <==> l in Strip(w)
  {
    if w != [] {
      assert w == [w[0]] + w[1..];
      StripMember(w[1..], l);
    }
  }

  lemma StripHead(w: seq<Letter>)
    requires w != [] && w[0] != Ask
    ensures Strip(w) == [w[0]] + Strip(w[1..])
  {
  }

  /** Lane by lane, and as words. */
  lemma Agree(s: Sys)
    ensures forall x: nat :: Strip(Leftward(Full(s).left, x)) == Leftward(Abs(s).left, x)
    ensures Strip(Full(s).arb) == Abs(s).arb
    ensures forall k :: 0 <= k < |s.devs| ==>
              Strip(Full(s).left[k]) == Abs(s).left[k] && Strip(Full(s).right[k]) == Abs(s).right[k]
  {
    forall k | 0 <= k < |s.devs|
      ensures Strip(Full(s).left[k]) == Abs(s).left[k] && Strip(Full(s).right[k]) == Abs(s).right[k]
    {
      StripMarks(s.devs[k].q, k);
    }
    StripMarks(s.arbQ, ARBITER);
    forall x: nat ensures Strip(Leftward(Full(s).left, x)) == Leftward(Abs(s).left, x) {
      StripLeftward(Full(s).left, Abs(s).left, x);
    }
  }

  // How steps look

  lemma {:induction false} MarksAppend(q: seq<Msg>, m: Msg, self: int)
    ensures LeftMarks(q + [m], self) == LeftMarks(q, self) + if m.from == self - 1 then [] else LeftMark(m)
    ensures RightMarks(q + [m], self) == RightMarks(q, self) + if m.from == self - 1 then RightMark(m) else []
  {
    if q == [] {
      assert (q + [m])[1..] == [];
    } else {
      assert (q + [m])[1..] == q[1..] + [m];
      MarksAppend(q[1..], m, self);
    }
  }

  lemma FullNode(s: Sys, i: nat, d: Node)
    requires i < |s.devs|
    ensures var f := Full(s);
            Full(s.(devs := s.devs[i := d])) ==
              f.(left := f.left[i := LeftMarks(d.q, i)], right := f.right[i := RightMarks(d.q, i)],
                 busy := f.busy[i := d.p.bbsyAsserted], phase := f.phase[i := PhaseOf(d)])
  {
    var f := Full(s);
    var devs := s.devs[i := d];
    assert MarkedLefts(devs) == f.left[i := LeftMarks(d.q, i)];
    assert MarkedRights(devs) == f.right[i := RightMarks(d.q, i)];
    assert Busys(devs) == f.busy[i := d.p.bbsyAsserted];
    assert Phases(devs) == f.phase[i := PhaseOf(d)];
  }

  ghost function FullWrite(f: Core, i: nat, out: Option<Sent>): Core
    requires Shape(f) && i < Devices(f)
  {
    if out.None? then f
    else if out.value.to == Left then
      (if LeftMark(out.value.msg) == [] then f else PushLeft(f, i, LeftMark(out.value.msg)[0]))
    else if out.value.to == Right then
      (if RightMark(out.value.msg) == [] then f else PushRight(f, i, RightMark(out.value.msg)[0]))
    else f
  }

  lemma FullDeliver(s: Sys, i: nat, out: Option<Sent>)
    requires i < |s.devs| && (out.Some? ==> out.value.msg.from == i)
    ensures Full(Deliver(s, i, out)) == FullWrite(Full(s), i, out)
  {
    if out.Some? && out.value.to == Left {
      FullDeliverLeft(s, i, out.value.msg);
    } else if out.Some? && out.value.to == Right && i + 1 < |s.devs| {
      FullDeliverRight(s, i, out.value.msg);
    }
  }

  lemma FullDeliverLeft(s: Sys, i: nat, m: Msg)
    requires i < |s.devs| && m.from == i
    ensures Full(Deliver(s, i, Some(Sent(Left, m)))) ==
              if LeftMark(m) == [] then Full(s) else PushLeft(Full(s), i, LeftMark(m)[0])
  {
    hide LeftMarks, RightMarks;
    if i > 0 {
      var d := s.devs[i - 1];
      MarksAppend(d.q, m, i - 1);
      FullNode(s, i - 1, d.(q := d.q + [m]));
      AbsAppend(Full(s), i - 1, LeftMark(m), []);
    } else {
      MarksAppend(s.arbQ, m, ARBITER);
      assert LeftMarks(s.arbQ, ARBITER) + [] == LeftMarks(s.arbQ, ARBITER);
    }
  }

  lemma FullDeliverRight(s: Sys, i: nat, m: Msg)
    requires i + 1 < |s.devs| && m.from == i
    ensures Full(Deliver(s, i, Some(Sent(Right, m)))) ==
              if RightMark(m) == [] then Full(s) else PushRight(Full(s), i, RightMark(m)[0])
  {
    hide LeftMarks, RightMarks;
    var d := s.devs[i + 1];
    MarksAppend(d.q, m, i + 1);
    FullNode(s, i + 1, d.(q := d.q + [m]));
    AbsAppend(Full(s), i + 1, [], RightMark(m));
  }

  lemma FullFire(s: Sys, i: nat, x: Micro, q: seq<Msg>)
    requires i < |s.devs| && (x.out.Some? ==> x.out.value.msg.from == i)
    ensures var f := Full(s);
            Full(Fire(s, i, x, q)) ==
              FullWrite(f.(left := f.left[i := LeftMarks(q, i)], right := f.right[i := RightMarks(q, i)],
                           busy := f.busy[i := x.p.bbsyAsserted], phase := f.phase[i := PhaseOf(Node(x.p, x.pc, q))]),
                        i, x.out)
  {
    FullNode(s, i, Node(x.p, x.pc, q));
    FullDeliver(s.(devs := s.devs[i := Node(x.p, x.pc, q)]), i, x.out);
  }

  /** A step that leaves the queue alone. */
  lemma FullFireHere(s: Sys, i: nat, x: Micro)
    requires i < |s.devs| && (x.out.Some? ==> x.out.value.msg.from == i)
    ensures var f := Full(s);
            Full(Fire(s, i, x, s.devs[i].q)) ==
              FullWrite(f.(busy := f.busy[i := x.p.bbsyAsserted],
                           phase := f.phase[i := PhaseOf(Node(x.p, x.pc, s.devs[i].q))]), i, x.out)
  {
    var f := Full(s);
    FullFire(s, i, x, s.devs[i].q);
    assert f.left[i := LeftMarks(s.devs[i].q, i)] == f.left;
    assert f.right[i := RightMarks(s.devs[i].q, i)] == f.right;
  }

  // What each step does to the marked bus

  /** Reading a message from the arbiter's side. */
  ghost function ReadMove(f: Core, i: nat, p: Pr, m: Msg): Core
    requires Shape(f) && i < Devices(f) && (RightMark(m) != [] ==> f.right[i] != [])
  {
    if RightMark(m) == [] then f
    else if m.sig == BG && m.asserted && p.brIssued then PushLeft(DropRight(f, i), i, Ask)
    else if m.sig == BG && !m.asserted && p.sackAsserted then
      (if p.bbsyAsserted then DropRight(f, i) else TakeGrant(f, i))
    else MoveRight(f, i)
  }

  lemma FullReadDown(s: Sys, i: nat)
    requires Wired(s) && Traffic(s) && Enabled(s, Read(i)) && s.devs[i].q[0].from == i - 1
    ensures var f := Full(s); var m := s.devs[i].q[0];
            (RightMark(m) != [] ==> f.right[i] != [] && f.right[i][0] == RightMark(m)[0])
            && Full(Step(s, Read(i))) == ReadMove(f, i, s.devs[i].p, m)
  {
    hide Step, Receive, FullWrite, Traffic, Deliverable, ReadMove;
    var d := s.devs[i];
    var m, f, x := d.q[0], Full(s), Receive(d.p, d.q[0]);
    DownWrites(s, i);
    FullFire(s, i, x, d.q[1..]);
    assert Step(s, Read(i)) == Fire(s, i, x, d.q[1..]) by {
      ReadFires(s, i);
    }
    assert f.right[i] == RightMark(m) + RightMarks(d.q[1..], i);
    assert f.right[i][|RightMark(m)|..] == RightMarks(d.q[1..], i);
    assert LeftMarks(d.q[1..], i) == f.left[i];
    assert ReadsDown(f, i, d);
    if m.sig == BG {
      GrantMoves(f, i, d, x);
    } else {
      OtherMoves(f, i, d, x);
    }
  }

  lemma ReadFires(s: Sys, i: nat)
    requires Enabled(s, Read(i))
    ensures Step(s, Read(i)) == Fire(s, i, Receive(s.devs[i].p, s.devs[i].q[0]), s.devs[i].q[1..])
  {
  }

  lemma DownWrites(s: Sys, i: nat)
    requires Wired(s) && Traffic(s) && Enabled(s, Read(i)) && s.devs[i].q[0].from == i - 1
    ensures var x := Receive(s.devs[i].p, s.devs[i].q[0]);
            (x.out.Some? ==> x.out.value.msg.from == i) && s.devs[i].q[0].sig != NPR && s.devs[i].q[0].sig != NPG
  {
    assert Deliverable(s.devs[i].q[0], i, |s.devs|);
  }

  /** The device reads from the arbiter's side, and the bus agrees with it. */
  ghost predicate ReadsDown(f: Core, i: nat, d: Node) {
    && Shape(f) && i < Devices(f) && d.q != [] && d.pc == Idle
    && d.p.left == Some(i - 1) && d.p.self == i && d.p.right == (if i + 1 < Devices(f) then Some(i + 1) else None)
    && d.q[0].from == i - 1 && d.q[0].sig != NPR && d.q[0].sig != NPG
    && f.busy[i] == d.p.bbsyAsserted && f.phase[i] == PhaseOf(d)
    && |RightMark(d.q[0])| <= |f.right[i]| && (RightMark(d.q[0]) != [] ==> f.right[i][0] == RightMark(d.q[0])[0])
  }

  /** The bus with the letter read and the device's flags as they then are. */
  ghost function Taken(f: Core, i: nat, d: Node, b: bool, ph: Phase): Core
    requires ReadsDown(f, i, d)
  {
    f.(left := f.left[i := f.left[i]], right := f.right[i := f.right[i][|RightMark(d.q[0])|..]],
       busy := f.busy[i := b], phase := f.phase[i := ph])
  }

  lemma SameLanes(f: Core, i: nat)
    requires Shape(f) && i < Devices(f)
    ensures f.left[i := f.left[i]] == f.left && f.busy[i := f.busy[i]] == f.busy && f.phase[i := f.phase[i]] == f.phase
    ensures f.right[i][0..] == f.right[i] && f.right[i := f.right[i]] == f.right
  {
  }

  /** The reaction, as the updates of one device and a write: to a grant, and to the rest. */
  lemma GrantMoves(f: Core, i: nat, d: Node, x: Micro)
    requires ReadsDown(f, i, d) && d.q[0].sig == BG && x == Receive(d.p, d.q[0])
    ensures FullWrite(Taken(f, i, d, x.p.bbsyAsserted, PhaseOf(Node(x.p, x.pc, d.q[1..]))), i, x.out)
            == ReadMove(f, i, d.p, d.q[0])
  {
    SameLanes(f, i);
  }

  lemma OtherMoves(f: Core, i: nat, d: Node, x: Micro)
    requires ReadsDown(f, i, d) && d.q[0].sig != BG && x == Receive(d.p, d.q[0])
    ensures FullWrite(Taken(f, i, d, x.p.bbsyAsserted, PhaseOf(Node(x.p, x.pc, d.q[1..]))), i, x.out)
            == ReadMove(f, i, d.p, d.q[0])
  {
    SameLanes(f, i);
  }

  lemma FullReadUp(s: Sys, i: nat)
    requires Wired(s) && Traffic(s) && Enabled(s, Read(i)) && s.devs[i].q[0].from != i - 1
    ensures var f := Full(s);
            f.left[i] != [] && LeftMark(s.devs[i].q[0]) == [f.left[i][0]] && Full(Step(s, Read(i))) == MoveLeft(f, i)
  {
    hide Step, Receive, FullWrite, MoveLeft;
    var d := s.devs[i];
    var m, f, x := d.q[0], Full(s), Receive(d.p, d.q[0]);
    assert Deliverable(m, i, |s.devs|);
    ReadFires(s, i);
    UpMoves(f, i, d, x);
    FullFire(s, i, x, d.q[1..]);
    assert f.left[i] == LeftMark(m) + LeftMarks(d.q[1..], i);
    assert f.left[i][1..] == LeftMarks(d.q[1..], i);
    assert RightMarks(d.q[1..], i) == f.right[i];
  }

  lemma UpMoves(f: Core, i: nat, d: Node, x: Micro)
    requires Shape(f) && i < Devices(f) && d.q != [] && d.pc == Idle
    requires d.p.left == Some(i - 1) && d.p.self == i && d.p.right == if i + 1 < Devices(f) then Some(i + 1) else None
    requires d.q[0].from == i + 1 < Devices(f) && d.q[0].sig != NPR && d.q[0].sig != NPG && d.q[0].sig != BG
    requires x == Receive(d.p, d.q[0]) && f.busy[i] == d.p.bbsyAsserted && f.phase[i] == PhaseOf(d)
    ensures |LeftMark(d.q[0])| == 1 && (x.out.Some? ==> x.out.value.msg.from == i)
    ensures f.left[i] != [] && f.left[i][0] == LeftMark(d.q[0])[0] ==>
              FullWrite(f.(left := f.left[i := f.left[i][1..]], right := f.right[i := f.right[i]],
                           busy := f.busy[i := x.p.bbsyAsserted],
                           phase := f.phase[i := PhaseOf(Node(x.p, x.pc, d.q[1..]))]), i, x.out)
              == MoveLeft(f, i)
  {
    assert f.right[i := f.right[i]] == f.right;
    assert f.busy[i := f.busy[i]] == f.busy && f.phase[i := f.phase[i]] == f.phase;
  }

  lemma FullRequest(s: Sys, i: nat)
    requires Wired(s) && Enabled(s, StartRequest(i))
    ensures Full(Step(s, StartRequest(i))) == if s.devs[i].p.bbsyAsserted then Full(s) else PushLeft(Full(s), i, Ask)
  {
    hide LeftMarks, RightMarks;
    var x := Request(s.devs[i].p);
    FullFireHere(s, i, x);
    AbsAppend(Full(s), i, [], []);
    assert PhaseOf(Node(x.p, x.pc, s.devs[i].q)) == PhaseOf(s.devs[i]);
  }

  lemma FullRelease(s: Sys, i: nat)
    requires Wired(s) && Enabled(s, StartRelease(i)) && Consistent(s.devs[i])
    ensures Full(Step(s, StartRelease(i))) == PushLeft(SetPhase(Full(s), i, Leaving), i, SackOff)
  {
    hide LeftMarks, RightMarks;
    FullFireHere(s, i, Release(s.devs[i].p));
    AbsAppend(Full(s), i, [], []);
  }

  lemma FullGoOn(s: Sys, i: nat)
    requires Wired(s) && Enabled(s, GoOn(i)) && Consistent(s.devs[i])
    ensures Full(Step(s, GoOn(i))) == GoOnMove(Full(s), i, s.devs[i].pc)
  {
    hide LeftMarks, RightMarks;
    var x := Continue(s.devs[i].p, s.devs[i].pc);
    FullFireHere(s, i, x);
    GoOnLocal(s.devs[i], x, s.devs[i].q);
    AbsAppend(Full(s), i, [], []);
  }

  /** What the arbiter's answer, if any, puts on the bus. */
  function AnswerMark(out: Option<Msg>): seq<Letter> { if out.Some? then RightMark(out.value) else [] }

  ghost function ArbAnswer(f: Core, idle: bool, mark: seq<Letter>): Core
    requires f.arb != []
  {
    f.(idle := idle, arb := f.arb[1..], right := if |f.right| > 0 then f.right[0 := f.right[0] + mark] else f.right)
  }

  lemma FullArb(s: Sys)
    requires Traffic(s) && Enabled(s, ArbRead)
    ensures var f := Full(s); var r := BusArbiter.Receive(s.arb, s.arbQ[0]);
            f.arb != [] && LeftMark(s.arbQ[0]) == [f.arb[0]]
            && Full(Step(s, ArbRead)) == ArbAnswer(f, !r.arb.sack, AnswerMark(r.out))
  {
    hide RightMarks;
    var f, m := Full(s), s.arbQ[0];
    assert Deliverable(m, ARBITER, |s.devs|);
    var r := BusArbiter.Receive(s.arb, m);
    var t := s.(arb := r.arb, arbQ := s.arbQ[1..]);
    assert f.arb == LeftMark(m) + LeftMarks(s.arbQ[1..], ARBITER);
    assert f.arb[1..] == LeftMarks(s.arbQ[1..], ARBITER);
    assert Full(t) == f.(idle := !r.arb.sack, arb := f.arb[1..]);
    if |s.devs| > 0 {
      ArbDeliversMark(t, r.out);
    }
  }

  lemma ArbDeliversMark(t: Sys, out: Option<Msg>)
    requires |t.devs| > 0 && (out.Some? ==> out.value.from == ARBITER)
    ensures var u := if out.Some? then t.(devs := t.devs[0 := t.devs[0].(q := t.devs[0].q + [out.value])]) else t;
            Full(u) == Full(t).(right := Full(t).right[0 := Full(t).right[0] + AnswerMark(out)])
  {
    hide LeftMarks, RightMarks;
    var d := t.devs[0];
    AbsAppend(Full(t), 0, [], []);
    assert Full(t).right[0] + [] == Full(t).right[0];
    if out.Some? {
      MarksAppend(d.q, out.value, 0);
      FullNode(t, 0, d.(q := d.q + [out.value]));
      assert LeftMarks(d.q, 0) + [] == LeftMarks(d.q, 0);
      assert Full(t).left[0 := LeftMarks(d.q, 0)] == Full(t).left;
    }
  }

  lemma FullMain(s: Sys, i: nat, p: Pr)
    requires i < |s.devs| && p == s.devs[i].p.(reqMaster := p.reqMaster, relMaster := p.relMaster)
    ensures Full(s.(devs := s.devs[i := s.devs[i].(p := p)])) == Full(s)
  {
    hide LeftMarks, RightMarks;
    FullNode(s, i, s.devs[i].(p := p));
    AbsAppend(Full(s), i, [], []);
    assert Full(s).left[i := LeftMarks(s.devs[i].q, i)] == Full(s).left;
    assert Full(s).right[i := RightMarks(s.devs[i].q, i)] == Full(s).right;
  }
}
