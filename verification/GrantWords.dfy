/** The bus as two words: acknowledgements and SACK-negated on their way to the arbiter, and grants
    and BG-negated on their way down to one device. */
module GrantWords {
  import opened Wrappers
  import opened Signals
  import opened PriorityBus
  import opened PriorityChain
  import opened BusStreams
  import opened ChainSafety
  import opened BusPermission
  import BusArbiter

  // The two words

  /** SACK asserted and negated, and BG asserted and negated. */
  function UpMark(m: Msg): seq<Letter> { if m.sig == SACK then [if m.asserted then Ask else SackOff] else [] }

  function DownMark(m: Msg): seq<Letter> { if m.sig == BG then [if m.asserted then Ask else GrantOff] else [] }

  ghost function UpWord(q: seq<Msg>, self: int): seq<Letter> {
    if q == [] then [] else (if q[0].from == self - 1 then [] else UpMark(q[0])) + UpWord(q[1..], self)
  }

  ghost function DownWord(q: seq<Msg>, self: int): seq<Letter> {
    if q == [] then [] else (if q[0].from == self - 1 then DownMark(q[0]) else []) + DownWord(q[1..], self)
  }

  ghost function Ups(devs: seq<Node>): (r: Lanes)
    ensures |r| == |devs|
  {
    seq(|devs|, i requires 0 <= i < |devs| => UpWord(devs[i].q, i))
  }

  ghost function Downs(devs: seq<Node>): (r: Lanes)
    ensures |r| == |devs|
  {
    seq(|devs|, i requires 0 <= i < |devs| => DownWord(devs[i].q, i))
  }

  /** What the arbiter will read, and what device `d` will read from the arbiter's side. */
  ghost function Up(s: Sys): seq<Letter> { UpWord(s.arbQ, ARBITER) + Leftward(Ups(s.devs), 0) }

  ghost function Down(s: Sys, d: nat): seq<Letter>
    requires d < |s.devs|
  {
    Rightward(Downs(s.devs), d)
  }

  lemma {:induction false} UpDownAppend(q: seq<Msg>, m: Msg, self: int)
    ensures UpWord(q + [m], self) == UpWord(q, self) + if m.from == self - 1 then [] else UpMark(m)
    ensures DownWord(q + [m], self) == DownWord(q, self) + if m.from == self - 1 then DownMark(m) else []
  {
    if q == [] {
      assert (q + [m])[1..] == [];
    } else {
      assert (q + [m])[1..] == q[1..] + [m];
      UpDownAppend(q[1..], m, self);
    }
  }

  lemma {:induction false} UpDownHas(q: seq<Msg>, self: int)
    ensures SackOff in UpWord(q, self) ==> exists k :: 0 <= k < |q| && Frees(q[k], self)
    ensures GrantOff in DownWord(q, self) ==> exists k :: 0 <= k < |q| && Grants(q[k], self)
  {
    if q != [] {
      UpDownHas(q[1..], self);
      assert forall k :: 1 <= k < |q| ==> q[k] == q[1..][k - 1];
      assert Frees(q[0], self) || SackOff !in (if q[0].from == self - 1 then [] else UpMark(q[0]));
    }
  }

  lemma SameLane(ws: Lanes, k: int)
    ensures 0 <= k < |ws| ==> ws[k] + [] == ws[k] && ws[k := ws[k]] == ws
  {
  }

  lemma NodeLanes(devs: seq<Node>, i: nat, d: Node)
    requires i < |devs|
    ensures Ups(devs[i := d]) == Ups(devs)[i := UpWord(d.q, i)]
    ensures Downs(devs[i := d]) == Downs(devs)[i := DownWord(d.q, i)]
  {
    var u, v := Ups(devs), Downs(devs);
    assert Ups(devs[i := d]) == u[i := UpWord(d.q, i)];
    assert Downs(devs[i := d]) == v[i := DownWord(d.q, i)];
  }

  /** What a written message adds to the arbiter's word and to the lanes. */
  lemma DeliverLanes(s: Sys, i: nat, out: Option<Sent>)
    requires i < |s.devs| && (out.Some? ==> out.value.msg.from == i)
    ensures var t := Deliver(s, i, out);
            var up := if out.Some? && out.value.to == Left then UpMark(out.value.msg) else [];
            var down := if out.Some? && out.value.to == Right then DownMark(out.value.msg) else [];
            && |t.devs| == |s.devs|
            && UpWord(t.arbQ, ARBITER) == UpWord(s.arbQ, ARBITER) + (if i == 0 then up else [])
            && Ups(t.devs) == (if i > 0 then Ups(s.devs)[i - 1 := Ups(s.devs)[i - 1] + up] else Ups(s.devs))
            && Downs(t.devs) ==
                 if i + 1 < |s.devs| then Downs(s.devs)[i + 1 := Downs(s.devs)[i + 1] + down] else Downs(s.devs)
  {
    hide UpWord, DownWord;
    var u, v := Ups(s.devs), Downs(s.devs);
    assert UpWord(s.arbQ, ARBITER) + [] == UpWord(s.arbQ, ARBITER);
    SameLane(u, i - 1);
    SameLane(v, i - 1);
    SameLane(u, i + 1);
    SameLane(v, i + 1);
    if out.Some? {
      var m := out.value.msg;
      if out.value.to == Left && i == 0 {
        UpDownAppend(s.arbQ, m, ARBITER);
      } else if out.value.to == Left {
        var d := s.devs[i - 1];
        UpDownAppend(d.q, m, i - 1);
        NodeLanes(s.devs, i - 1, d.(q := d.q + [m]));
      } else if out.value.to == Right && i + 1 < |s.devs| {
        var d := s.devs[i + 1];
        UpDownAppend(d.q, m, i + 1);
        NodeLanes(s.devs, i + 1, d.(q := d.q + [m]));
      }
    }
  }

  /** The words and lanes of a state in which device `i` has queue `q` instead. */
  lemma SetLanes(s: Sys, i: nat, d: Node)
    requires i < |s.devs|
    ensures var t := s.(devs := s.devs[i := d]);
            && Ups(t.devs) == Ups(s.devs)[i := UpWord(d.q, i)] && Downs(t.devs) == Downs(s.devs)[i := DownWord(d.q, i)]
  {
    NodeLanes(s.devs, i, d);
  }

  /** No acknowledgement or SACK-negated comes from beyond device `d`. */
  ghost predicate NoneBeyond(s: Sys, d: nat) {
    forall k :: d <= k < |s.devs| ==> Ups(s.devs)[k] == []
  }

  // What steps do to the words

  ghost predicate SameWords(s: Sys, t: Sys, d: nat)
    requires d < |s.devs|
  {
    |t.devs| == |s.devs| && NoneBeyond(t, d) && Up(t) == Up(s) && Down(t, d) == Down(s, d)
  }

  /** A step that takes no letter and writes none. */
  lemma PlainFire(s: Sys, i: nat, x: Micro, q: seq<Msg>, d: nat)
    requires i < |s.devs| && d < |s.devs| && NoneBeyond(s, d) && (x.out.Some? ==> x.out.value.msg.from == i)
    requires UpWord(q, i) == Ups(s.devs)[i] && DownWord(q, i) == Downs(s.devs)[i]
    requires x.out.Some? ==>
               (if x.out.value.to == Left then UpMark(x.out.value.msg) else DownMark(x.out.value.msg)) == []
    ensures SameWords(s, Fire(s, i, x, q), d)
  {
    hide UpWord, DownWord, Leftward, Rightward, UpMark, DownMark;
    var u, v := Ups(s.devs), Downs(s.devs);
    var s1 := s.(devs := s.devs[i := Node(x.p, x.pc, q)]);
    SetLanes(s, i, Node(x.p, x.pc, q));
    assert Ups(s1.devs) == u && Downs(s1.devs) == v;
    DeliverLanes(s1, i, x.out);
    assert UpWord(s.arbQ, ARBITER) + [] == UpWord(s.arbQ, ARBITER);
    SameLane(u, i - 1);
    SameLane(v, i + 1);
  }

  lemma HeadWords(q: seq<Msg>, self: int)
    requires q != []
    ensures if q[0].from == self - 1
            then DownWord(q, self) == DownMark(q[0]) + DownWord(q[1..], self) && UpWord(q, self) == UpWord(q[1..], self)
            else UpWord(q, self) == UpMark(q[0]) + UpWord(q[1..], self) && DownWord(q, self) == DownWord(q[1..], self)
  {
    assert [] + UpWord(q[1..], self) == UpWord(q[1..], self) && [] + DownWord(q[1..], self) == DownWord(q[1..], self);
  }

  lemma PassUpLanes(s: Sys, i: nat, x: Micro, m: Msg, l: Letter)
    requires i < |s.devs| && s.devs[i].q != [] && m == s.devs[i].q[0]
    requires m.from != i - 1 && UpMark(m) == [l] && x.out == Some(Sent(Left, m.(from := i)))
    ensures var t := Fire(s, i, x, s.devs[i].q[1..]); var u := Ups(s.devs);
            && |t.devs| == |s.devs| && u[i] != [] && u[i][0] == l && Downs(t.devs) == Downs(s.devs)
            && UpWord(t.arbQ, ARBITER) == UpWord(s.arbQ, ARBITER) + (if i == 0 then [l] else [])
            && Ups(t.devs) == if i > 0 then u[i := u[i][1..]][i - 1 := u[i - 1] + [l]] else u[i := u[i][1..]]
  {
    hide UpWord, DownWord;
    var q := s.devs[i].q;
    var u, v := Ups(s.devs), Downs(s.devs);
    HeadWords(q, i);
    var s1 := s.(devs := s.devs[i := Node(x.p, x.pc, q[1..])]);
    SetLanes(s, i, Node(x.p, x.pc, q[1..]));
    SameLane(v, i);
    SameLane(v, i + 1);
    assert u[i][1..] == UpWord(q[1..], i);
    DeliverLanes(s1, i, x.out);
  }

  /** A letter passed on towards the arbiter. */
  lemma PassUp(s: Sys, i: nat, x: Micro, m: Msg, d: nat)
    requires i < |s.devs| && d < |s.devs| && NoneBeyond(s, d) && s.devs[i].q != [] && m == s.devs[i].q[0]
    requires m.from != i - 1 && UpMark(m) != [] && x.out == Some(Sent(Left, m.(from := i)))
    ensures SameWords(s, Fire(s, i, x, s.devs[i].q[1..]), d)
  {
    hide Leftward, Rightward, UpWord, DownWord, Fire, Ups, Downs;
    OneLetter(m);
    var u, l, w := Ups(s.devs), UpMark(m)[0], UpWord(s.arbQ, ARBITER);
    PassUpLanes(s, i, x, m, l);
    assert i < d;
    if i == 0 {
      LeftPop(u, 0);
      var rest := Leftward(u[0 := u[0][1..]], 0);
      assert w + ([l] + rest) == (w + [l]) + rest;
    } else {
      LeftMove(u, i, 0);
      assert w + [] == w;
    }
  }

  lemma PassDownLanes(s: Sys, i: nat, x: Micro, m: Msg, l: Letter)
    requires i < |s.devs| && s.devs[i].q != [] && m == s.devs[i].q[0]
    requires m.from == i - 1 && DownMark(m) == [l]
    requires x.out == if i + 1 < |s.devs| then Some(Sent(Right, m.(from := i))) else None
    ensures var t := Fire(s, i, x, s.devs[i].q[1..]); var v := Downs(s.devs);
            && |t.devs| == |s.devs| && v[i] != [] && v[i][0] == l && Ups(t.devs) == Ups(s.devs)
            && UpWord(t.arbQ, ARBITER) == UpWord(s.arbQ, ARBITER)
            && Downs(t.devs) == if i + 1 < |v| then v[i := v[i][1..]][i + 1 := v[i + 1] + [l]] else v[i := v[i][1..]]
  {
    hide UpWord, DownWord;
    var q := s.devs[i].q;
    var u, v := Ups(s.devs), Downs(s.devs);
    HeadWords(q, i);
    var s1 := s.(devs := s.devs[i := Node(x.p, x.pc, q[1..])]);
    SetLanes(s, i, Node(x.p, x.pc, q[1..]));
    SameLane(u, i);
    SameLane(u, i - 1);
    assert v[i][1..] == DownWord(q[1..], i);
    DeliverLanes(s1, i, x.out);
    assert UpWord(s.arbQ, ARBITER) + [] == UpWord(s.arbQ, ARBITER);
  }

  /** A letter passed on away from the arbiter, or dropped by the last device. */
  lemma PassDown(s: Sys, i: nat, x: Micro, m: Msg, d: nat)
    requires i < |s.devs| && d < |s.devs| && NoneBeyond(s, d) && s.devs[i].q != [] && m == s.devs[i].q[0]
    requires m.from == i - 1 && DownMark(m) != []
    requires x.out == if i + 1 < |s.devs| then Some(Sent(Right, m.(from := i))) else None
    ensures var t := Fire(s, i, x, s.devs[i].q[1..]);
            && |t.devs| == |s.devs| && NoneBeyond(t, d) && Up(t) == Up(s)
            && Down(s, d) == (if i == d then DownMark(m) else []) + Down(t, d)
  {
    hide Leftward, Rightward, UpWord, DownWord, Fire, Ups, Downs;
    OneLetter(m);
    var v, l := Downs(s.devs), DownMark(m)[0];
    PassDownLanes(s, i, x, m, l);
    assert [] + Down(s, d) == Down(s, d);
    if i + 1 < |s.devs| {
      BusStreams.RightMove(v, i, d);
    } else {
      var pre := RightPop(v, i, d);
      var rest := Rightward(v[i := v[i][1..]], d);
      assert [] + [l] + rest == [l] + rest;
    }
  }

  /** Device `d` takes a letter off the bus and may write one towards the arbiter. */
  lemma TakeDown(s: Sys, x: Micro, m: Msg, d: nat)
    requires d < |s.devs| && NoneBeyond(s, d) && s.devs[d].q != [] && m == s.devs[d].q[0]
    requires m.from == d - 1 && DownMark(m) != []
    requires x.out.Some? && x.out.value.to == Left && x.out.value.msg.from == d
    ensures var t := Fire(s, d, x, s.devs[d].q[1..]);
            && |t.devs| == |s.devs| && NoneBeyond(t, d) && Up(t) == Up(s) + UpMark(x.out.value.msg)
            && Down(s, d) == DownMark(m) + Down(t, d)
  {
    hide Leftward, Rightward;
    var q := s.devs[d].q;
    var u, v, l := Ups(s.devs), Downs(s.devs), DownMark(m)[0];
    assert DownMark(m) == [l];
    assert v[d] == [l] + DownWord(q[1..], d) && u[d] == [] + UpWord(q[1..], d);
    var s1 := s.(devs := s.devs[d := Node(x.p, x.pc, q[1..])]);
    SetLanes(s, d, Node(x.p, x.pc, q[1..]));
    var vs := v[d := v[d][1..]];
    assert v[d][1..] == DownWord(q[1..], d) && Downs(s1.devs) == vs && u[d := UpWord(q[1..], d)] == u;
    WriteUp(s1, x.out.value.msg, d);
    var pre := RightPop(v, d, d);
    assert [] + [l] + Rightward(vs, d) == [l] + Rightward(vs, d);
  }

  /** A letter that device `d` writes towards the arbiter is the last one there. */
  lemma WriteUp(s: Sys, m: Msg, d: nat)
    requires d < |s.devs| && NoneBeyond(s, d) && m.from == d
    ensures var t := Deliver(s, d, Some(Sent(Left, m)));
            && |t.devs| == |s.devs| && NoneBeyond(t, d) && Up(t) == Up(s) + UpMark(m) && Down(t, d) == Down(s, d)
  {
    hide UpWord, DownWord, Leftward, Rightward, UpMark;
    var u, v := Ups(s.devs), Downs(s.devs);
    DeliverLanes(s, d, Some(Sent(Left, m)));
    SameLane(v, d + 1);
    assert UpWord(s.arbQ, ARBITER) + [] == UpWord(s.arbQ, ARBITER);
    LeftEmpty(u, d);
    if d == 0 {
      assert Leftward(u, 0) == [];
      assert UpWord(s.arbQ, ARBITER) + [] + UpMark(m) == UpWord(s.arbQ, ARBITER) + UpMark(m) + [];
    } else if UpMark(m) == [] {
      SameLane(u, d - 1);
    } else {
      OneLetter(m);
      LeftPush(u, d - 1, UpMark(m)[0], 0);
    }
  }

  lemma OneLetter(m: Msg)
    ensures UpMark(m) != [] ==> UpMark(m) == [UpMark(m)[0]]
    ensures DownMark(m) != [] ==> DownMark(m) == [DownMark(m)[0]]
  {
  }

  /** The arbiter reads the first letter, and its answer is the last one on the way down. */
  lemma ArbWords(s: Sys, d: nat)
    requires d < |s.devs| && NoneBeyond(s, d) && s.arbQ != [] && s.arbQ[0].from != ARBITER - 1
    ensures var t := Step(s, ArbRead); var out := BusArbiter.Receive(s.arb, s.arbQ[0]).out;
            && |t.devs| == |s.devs| && NoneBeyond(t, d) && Up(s) == UpMark(s.arbQ[0]) + Up(t)
            && Down(t, d) == Down(s, d) + if out.Some? then DownMark(out.value) else []
  {
    hide Leftward, Rightward, DownWord;
    var m, out := s.arbQ[0], BusArbiter.Receive(s.arb, s.arbQ[0]).out;
    var u, v := Ups(s.devs), Downs(s.devs);
    var w := Leftward(u, 0);
    assert UpMark(m) + UpWord(s.arbQ[1..], ARBITER) + w == UpMark(m) + (UpWord(s.arbQ[1..], ARBITER) + w);
    if out.Some? {
      var n0 := s.devs[0];
      UpDownAppend(n0.q, out.value, 0);
      NodeLanes(s.devs, 0, n0.(q := n0.q + [out.value]));
      assert out.value.from == ARBITER;
      SameLane(u, 0);
      if DownMark(out.value) == [] {
        SameLane(v, 0);
      } else {
        assert DownMark(out.value) == [DownMark(out.value)[0]];
        var pre := RightPush(v, 0, DownMark(out.value)[0], d);
        NothingLeftOf(v);
        assert pre + Rightward(v, -1) == pre;
        assert pre + DownMark(out.value) + [] == pre + DownMark(out.value);
      }
    } else {
      assert Down(s, d) + [] == Down(s, d);
    }
  }

  lemma NothingLeftOf(v: Lanes)
    ensures Rightward(v, -1) == []
  {
  }
}
