/** The one permission to be master.  It can be lost, and then the bus is dead: no grant is ever
    negated again and no device ever becomes master. */
module BusPermission {
  import opened Wrappers
  import opened Signals
  import opened PriorityBus
  import opened PriorityChain
  import opened BusStreams
  import opened ArbitrationCore
  import opened ChainSafety
  import opened ChainPolls
  import opened ChainTraffic
  import BusArbiter

  /** Devices that have taken a grant and not yet begun to give it back. */
  function Holders(devs: seq<Node>): nat {
    if devs == [] then 0 else (if PhaseOf(devs[0]) == Hold then 1 else 0) + Holders(devs[1..])
  }

  /** The permission, counted over every place it can be: with the arbiter, in a SACK-negated on
      its way to it, in a BG-negated on its way down, or with a device. */
  ghost function Permissions(s: Sys): nat {
    (if s.arb.sack then 0 else 1) + SackNegations(s) + GrantNegations(s) + Holders(s.devs)
  }

  lemma {:induction false} HoldersCount(devs: seq<Node>, a: int)
    requires forall i :: 0 <= i < |devs| && PhaseOf(devs[i]) == Hold ==> i == a
    ensures Holders(devs) == if 0 <= a < |devs| && PhaseOf(devs[a]) == Hold then 1 else 0
  {
    if devs != [] {
      HoldersCount(devs[1..], a - 1);
    }
  }

  lemma PermissionsAre(s: Sys, a: int)
    requires InvAt(Abs(s), a)
    ensures Permissions(s) == Tokens(Abs(s), a)
  {
    hide Leftward, Rightward, Cyclic, GrantLast, Plain, LeftWord, RightWord, Count, Total;
    var c := Abs(s);
    forall i | 0 <= i < |s.devs| && PhaseOf(s.devs[i]) == Hold ensures i == a {
      assert c.phase[i] == PhaseOf(s.devs[i]);
    }
    HoldersCount(s.devs, a);
    if a >= 0 {
      assert c.phase[a] == PhaseOf(s.devs[a]);
    }
  }

  /** There is never more than one, whatever single step anything stands before. */
  lemma AtMostOne(n: nat, es: seq<Event>, t: Sys)
    requires IsRun(Init(n), es, t)
    ensures Permissions(t) <= 1
  {
    hide Permissions, Tokens, Places, Order, IsRun, Sound;
    InitKeeps(n);
    RunKeeps(Init(n), es, t);
    var a :| InvAt(Abs(t), a);
    PermissionsAre(t, a);
  }

  // Without it

  /** A SACK-negated on its way to the arbiter, and a BG-negated on its way down. */
  predicate Frees(m: Msg, self: int) { m.sig == SACK && !m.asserted && m.from != self - 1 }

  predicate Grants(m: Msg, self: int) { m.sig == BG && !m.asserted && m.from == self - 1 }

  ghost predicate Empty(q: seq<Msg>, self: int) {
    forall k :: 0 <= k < |q| ==> !Frees(q[k], self) && !Grants(q[k], self)
  }

  ghost predicate DeadNode(d: Node, i: int) { Empty(d.q, i) && PhaseOf(d) != Hold }

  /** The permission is nowhere. */
  ghost predicate Dead(s: Sys) {
    && s.arb.sack && (forall k :: 0 <= k < |s.arbQ| ==> !Frees(s.arbQ[k], ARBITER))
    && forall i :: 0 <= i < |s.devs| ==> DeadNode(s.devs[i], i)
  }

  lemma {:induction false} WordHas(q: seq<Msg>, self: int)
    ensures SackOff in LeftWord(q, self) <==> exists k :: 0 <= k < |q| && Frees(q[k], self)
    ensures GrantOff in RightWord(q, self) <==> exists k :: 0 <= k < |q| && Grants(q[k], self)
  {
    if q != [] {
      WordHas(q[1..], self);
      assert q == [q[0]] + q[1..];
      assert forall k :: 1 <= k < |q| ==> q[k] == q[1..][k - 1];
    }
  }

  lemma {:induction false} TotalNone(ws: Lanes, l: Letter)
    ensures Total(ws, l) == 0 <==> forall i :: 0 <= i < |ws| ==> l !in ws[i]
  {
    if ws != [] {
      CountMember(ws[0], l);
      TotalNone(ws[1..], l);
      assert forall i :: 1 <= i < |ws| ==> ws[i] == ws[1..][i - 1];
    }
  }

  lemma {:induction false} HoldersNone(devs: seq<Node>)
    ensures Holders(devs) == 0 <==> forall i :: 0 <= i < |devs| ==> PhaseOf(devs[i]) != Hold
  {
    if devs != [] {
      HoldersNone(devs[1..]);
      assert forall i :: 1 <= i < |devs| ==> devs[i] == devs[1..][i - 1];
    }
  }

  lemma DeadIsNone(s: Sys)
    ensures Permissions(s) == 0 <==> Dead(s)
  {
    hide LeftWord, RightWord, Count, Total, Holders, PhaseOf;
    WordHas(s.arbQ, ARBITER);
    CountMember(LeftWord(s.arbQ, ARBITER), SackOff);
    TotalNone(Lefts(s.devs), SackOff);
    TotalNone(Rights(s.devs), GrantOff);
    HoldersNone(s.devs);
    forall i | 0 <= i < |s.devs|
      ensures Lefts(s.devs)[i] == LeftWord(s.devs[i].q, i) && Rights(s.devs)[i] == RightWord(s.devs[i].q, i)
      ensures Empty(s.devs[i].q, i) <==> SackOff !in LeftWord(s.devs[i].q, i) && GrantOff !in RightWord(s.devs[i].q, i)
    {
      WordHas(s.devs[i].q, i);
    }
  }

  // It never comes back

  /** A step of one device, given what it reads, if anything. */
  ghost predicate Harmless(d: Node, i: nat, x: Micro) {
    && PhaseOf(Node(x.p, x.pc, [])) != Hold && (x.p.isMaster ==> d.p.isMaster)
    && (x.out.Some? ==>
          x.out.value.msg.from == i && (x.out.value.to == Left || x.out.value.to == Right)
          && !(x.out.value.msg.sig == BG && !x.out.value.msg.asserted)
          && (x.out.value.to == Left ==> !(x.out.value.msg.sig == SACK && !x.out.value.msg.asserted)))
  }

  lemma DeadActs(d: Node, i: nat)
    requires Consistent(d) && PhaseOf(d) != Hold
    ensures d.pc == Idle && d.p.reqMaster && !d.p.isMaster ==> Harmless(d, i, Request(d.p.(self := i)))
    ensures !(d.pc == Idle && d.p.isMaster)
    ensures d.pc != Idle ==> Harmless(d, i, Continue(d.p.(self := i), d.pc))
  {
  }

  lemma DeadReads(s: Sys, i: nat)
    requires Sound(s) && Dead(s) && Enabled(s, Read(i))
    ensures Harmless(s.devs[i], i, Receive(s.devs[i].p, s.devs[i].q[0]))
  {
    var d := s.devs[i];
    assert Deliverable(d.q[0], i, |s.devs|);
    assert DeadNode(d, i) && Consistent(d);
  }

  lemma EmptyAppend(q: seq<Msg>, m: Msg, self: int)
    requires Empty(q, self) && !Frees(m, self) && !Grants(m, self)
    ensures Empty(q + [m], self)
  {
  }

  lemma FireStaysDead(s: Sys, i: nat, x: Micro, q: seq<Msg>)
    requires Dead(s) && i < |s.devs| && Harmless(s.devs[i], i, x) && Empty(q, i)
    ensures Dead(Fire(s, i, x, q)) && |Fire(s, i, x, q).devs| == |s.devs|
    ensures forall k :: 0 <= k < |s.devs| ==> (Fire(s, i, x, q).devs[k].p.isMaster ==> s.devs[k].p.isMaster)
  {
    var t := Fire(s, i, x, q);
    forall k | 0 <= k < |t.devs| ensures DeadNode(t.devs[k], k) && (t.devs[k].p.isMaster ==> s.devs[k].p.isMaster) {
      assert DeadNode(s.devs[k], k);
      if x.out.Some? && k == (if x.out.value.to == Left then i - 1 else i + 1) {
        EmptyAppend(s.devs[k].q, x.out.value.msg, k);
      }
    }
  }

  /** No step brings the permission back, or makes a master. */
  lemma StaysDead(s: Sys, e: Event)
    requires Sound(s) && Dead(s) && Enabled(s, e)
    ensures Dead(Step(s, e)) && |Step(s, e).devs| == |s.devs|
    ensures forall k :: 0 <= k < |s.devs| ==> (Step(s, e).devs[k].p.isMaster ==> s.devs[k].p.isMaster)
  {
    hide Fire, Receive, Continue, Request, Traffic;
    match e {
      case ArbRead => DeadArbiter(s);
      case Read(i) =>
        DeadReads(s, i);
        assert DeadNode(s.devs[i], i);
        FireStaysDead(s, i, Receive(s.devs[i].p, s.devs[i].q[0]), s.devs[i].q[1..]);
      case MainRequest(i) => assert DeadNode(s.devs[i], i);
      case MainRelease(i) => assert DeadNode(s.devs[i], i);
      case StartRequest(i) =>
        Acts(s, i);
        FireStaysDead(s, i, Request(s.devs[i].p), s.devs[i].q);
      case StartRelease(i) => Acts(s, i);
      case GoOn(i) =>
        Acts(s, i);
        FireStaysDead(s, i, Continue(s.devs[i].p, s.devs[i].pc), s.devs[i].q);
    }
  }

  lemma Acts(s: Sys, i: nat)
    requires Sound(s) && Dead(s) && i < |s.devs|
    ensures Empty(s.devs[i].q, i) && !(s.devs[i].pc == Idle && s.devs[i].p.isMaster)
    ensures var d := s.devs[i]; d.pc == Idle && d.p.reqMaster && !d.p.isMaster ==> Harmless(d, i, Request(d.p))
    ensures var d := s.devs[i]; d.pc != Idle ==> Harmless(d, i, Continue(d.p, d.pc))
  {
    var d := s.devs[i];
    assert DeadNode(d, i) && Consistent(d);
    assert d.p.(self := i) == d.p;
    DeadActs(d, i);
  }

  lemma DeadArbiter(s: Sys)
    requires Sound(s) && Dead(s) && Enabled(s, ArbRead)
    ensures BusArbiter.Receive(s.arb, s.arbQ[0]).out == None
    ensures Dead(Step(s, ArbRead)) && Step(s, ArbRead).devs == s.devs
  {
    assert Deliverable(s.arbQ[0], ARBITER, |s.devs|) && !Frees(s.arbQ[0], ARBITER);
  }

  lemma {:induction false} RunStaysDead(s: Sys, es: seq<Event>, t: Sys)
    requires Inv(s) && Dead(s) && IsRun(s, es, t)
    ensures Inv(t) && Dead(t) && |t.devs| == |s.devs|
    ensures forall k :: 0 <= k < |s.devs| ==> (t.devs[k].p.isMaster ==> s.devs[k].p.isMaster)
    ensures forall k: nat :: CountMastered(s, es, t, k) == 0
    decreases |es|
  {
    hide InvAt, Step, Sound, Dead;
    if es != [] {
      InvSound(s);
      StaysDead(s, es[0]);
      StepKeeps(s, es[0]);
      RunStaysDead(Step(s, es[0]), es[1..], t);
    }
  }

  /** A bus that has lost the permission is dead: from such a reachable state on, in every
      continuation it stays lost, no device becomes master, and the arbiter answers nothing,
      whatever it reads.  Who is master then was master before, and is giving the bus back. */
  lemma DeadForever(n: nat, ds: seq<Event>, s: Sys, es: seq<Event>, t: Sys)
    requires IsRun(Init(n), ds, s) && Permissions(s) == 0 && IsRun(s, es, t)
    ensures Permissions(t) == 0 && |t.devs| == |s.devs|
    ensures forall i: nat :: CountMastered(s, es, t, i) == 0
    ensures t.arbQ != [] ==> BusArbiter.Receive(t.arb, t.arbQ[0]).out == None
    ensures forall i :: 0 <= i < |t.devs| && t.devs[i].p.isMaster ==>
              s.devs[i].p.isMaster && PhaseOf(t.devs[i]) == Leaving
  {
    hide Permissions, Inv, IsRun, Step, Empty;
    InitKeeps(n);
    RunKeeps(Init(n), ds, s);
    DeadIsNone(s);
    RunStaysDead(s, es, t);
    DeadIsNone(t);
    InvSound(t);
    if t.arbQ != [] {
      DeadArbiter(t);
    }
    forall i | 0 <= i < |t.devs| && t.devs[i].p.isMaster ensures PhaseOf(t.devs[i]) == Leaving {
      assert DeadNode(t.devs[i], i) && Consistent(t.devs[i]);
    }
  }
}
