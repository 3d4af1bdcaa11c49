/** How the permission to be master is lost: two devices are granted the bus, and the SACK of the
    farther one reaches the arbiter after the nearer one has had the bus and given it back. */
module LostPermission {
  import opened Wrappers
  import opened Signals
  import opened PriorityBus
  import opened PriorityChain
  import opened ChainSafety
  import opened ChainPolls
  import opened SackSharing
  import opened BusPermission
  import opened MarkedBus
  import opened LoneAsker

  predicate NobodyAsks(es: seq<Event>) { forall k :: 0 <= k < |es| ==> !es[k].MainRequest? }

  // A device between the arbiter and a parked message

  /** Up to device `i` nothing is on the bus, and the devices before it are at rest. */
  ghost predicate Near(s: Sys, i: nat) {
    && Wired(s) && i < |s.devs|
    && forall k :: 0 <= k < i ==> s.devs[k].q == [] && s.devs[k].pc == Idle && !s.devs[k].p.sackAsserted
  }

  /** Device `i + 1` and what is beyond it are as in `u`, except for what `i` has written. */
  ghost predicate FarSide(u: Sys, s: Sys, i: nat) {
    && |s.devs| == |u.devs| && i + 1 < |s.devs|
    && (forall k :: i + 2 <= k < |s.devs| ==> s.devs[k] == u.devs[k])
    && (var d, e := u.devs[i + 1], s.devs[i + 1];
        && e.p == d.p && e.pc == d.pc && |d.q| <= |e.q| && e.q[..|d.q|] == d.q
        && forall k :: |d.q| <= k < |e.q| ==> e.q[k].from == i && e.q[k].sig != BG)
  }

  /** A message on its way up passes all the devices before `i`. */
  lemma {:induction false} CarryUp(s: Sys, k: nat, m: Msg, i: nat) returns (es: seq<Event>, t: Sys)
    requires Near(s, i) && k < i && m.from == k + 1 && (m.sig == SACK || m.sig == BBSY)
    ensures IsRun(Put(s, k, m), es, t) && JustReads(es)
    ensures Near(t, i) && t.arb == s.arb && t.arbQ == s.arbQ + [m.(from := 0)]
    ensures |t.devs| == |s.devs| && forall x :: i <= x < |s.devs| ==> t.devs[x] == s.devs[x]
    decreases k
  {
    hide IsRun, Step;
    var d := s.devs[k];
    var p := Receive(d.p, m).p;
    var u := s.(devs := s.devs[k := d.(p := p)]);
    var v := if k == 0 then u.(arbQ := s.arbQ + [m.(from := 0)]) else Put(u, k - 1, m.(from := k));
    PassesOne(s, k, m);
    if k == 0 {
      t := v;
      NoEvents(v);
      es := [];
    } else {
      es, t := CarryUp(u, k - 1, m.(from := k), i);
    }
    NoEvents(Put(s, k, m));
    RunThen(Put(s, k, m), [], Put(s, k, m), Read(k), es, t);
    es := [] + ([Read(k)] + es);
  }

  lemma PassesOne(s: Sys, k: nat, m: Msg)
    requires Wired(s) && k + 1 < |s.devs| && s.devs[k].pc == Idle && s.devs[k].q == []
    requires (k > 0 ==> s.devs[k - 1].q == []) && m.from == k + 1 && (m.sig == SACK || m.sig == BBSY)
    ensures Enabled(Put(s, k, m), Read(k))
    ensures var u := s.(devs := s.devs[k := s.devs[k].(p := Receive(s.devs[k].p, m).p)]);
            && Receive(s.devs[k].p, m).p == s.devs[k].p.(bbsyAsserted := Receive(s.devs[k].p, m).p.bbsyAsserted)
            && Step(Put(s, k, m), Read(k)) ==
                 if k == 0 then u.(arbQ := s.arbQ + [m.(from := 0)]) else Put(u, k - 1, m.(from := k))
  {
    var d := s.devs[k];
    var x := Receive(d.p, m);
    var u := s.(devs := s.devs[k := d.(p := x.p)]);
    assert x.out == Some(Sent(Left, m.(from := k))) && x.pc == Idle;
    assert [m][1..] == [] && d.(p := x.p) == Node(x.p, Idle, []);
    assert Put(s, k, m).devs[k := Node(x.p, Idle, [])] == u.devs;
    if k > 0 {
      assert u.devs[k - 1].q + [m.(from := k)] == [m.(from := k)];
    }
  }

  // An action of device `i`, from its first write to its end

  /** Messages written to the left, as the arbiter gets them. */
  function LeftSent(out: seq<Sent>): seq<Msg> {
    if out == [] then []
    else (if out[0].to == Left then [out[0].msg.(from := 0)] else []) + LeftSent(out[1..])
  }

  lemma {:induction false} LeftSentConcat(a: seq<Sent>, b: seq<Sent>)
    ensures LeftSent(a + b) == LeftSent(a) + LeftSent(b)
  {
    if a == [] {
      assert a + b == b;
    } else {
      var h := if a[0].to == Left then [a[0].msg.(from := 0)] else [];
      assert (a + b)[0] == a[0] && (a + b)[1..] == a[1..] + b;
      assert LeftSent(a + b) == h + LeftSent(a[1..] + b);
      LeftSentConcat(a[1..], b);
      assert h + (LeftSent(a[1..]) + LeftSent(b)) == h + LeftSent(a[1..]) + LeftSent(b);
    }
  }

  /** A step of a device in the middle of the chain that writes SACK or BBSY, if anything. */
  predicate Ours(x: Micro, i: nat) {
    && x.p.left == Some(i - 1) && x.p.self == i && x.p.right == Some(i + 1) && x.pc != BrRight
    && (x.out.Some? ==> (x.out.value.to == Left || x.out.value.to == Right) && x.out.value.msg.from == i
                        && (x.out.value.msg.sig == SACK || x.out.value.msg.sig == BBSY))
  }

  /** What a device writes arrives. */
  lemma Delivers(u: Sys, s: Sys, i: nat, x: Micro, q: seq<Msg>) returns (es: seq<Event>, t: Sys)
    requires Near(s, i) && FarSide(u, s, i) && Ours(x, i)
    ensures IsRun(Fire(s, i, x, q), es, t) && JustReads(es)
    ensures i < |t.devs| && Near(t, i) && FarSide(u, t, i) && t.arb == s.arb && t.devs[i] == Node(x.p, x.pc, q)
    ensures t.arbQ == s.arbQ + LeftSent(Written(x.out))
  {
    hide IsRun;
    var s1 := s.(devs := s.devs[i := Node(x.p, x.pc, q)]);
    t := Fire(s, i, x, q);
    es := [];
    NoEvents(t);
    if x.out.Some? && x.out.value.to == Left {
      assert LeftSent([x.out.value][1..]) == [];
      if i > 0 {
        assert s1.devs[i - 1].q + [x.out.value.msg] == [x.out.value.msg];
        assert t == Put(s1, i - 1, x.out.value.msg);
        es, t := CarryUp(s1, i - 1, x.out.value.msg, i);
      }
    } else if x.out.Some? {
      assert LeftSent([x.out.value][1..]) == [];
      var e, f := s.devs[i + 1], t.devs[i + 1];
      assert f.q == e.q + [x.out.value.msg];
      assert f.q[..|u.devs[i + 1].q|] == e.q[..|u.devs[i + 1].q|];
    }
  }

  lemma {:induction false} Performs(u: Sys, s: Sys, i: nat, x: Micro, q: seq<Msg>) returns (es: seq<Event>, t: Sys)
    requires i < |s.devs| && Near(s, i) && FarSide(u, s, i) && Ours(x, i)
    ensures IsRun(Fire(s, i, x, q), es, t) && NobodyAsks(es)
    ensures i < |t.devs| && Near(t, i) && FarSide(u, t, i) && t.arb == s.arb && t.devs[i] == Node(Finish(x).p, Idle, q)
    ensures t.arbQ == s.arbQ + LeftSent(Finish(x).out)
    decreases Rank(x.pc)
  {
    hide IsRun, Near, FarSide, Fire, Step, Enabled, LeftSent;
    es, t := Delivers(u, s, i, x, q);
    if x.pc != Idle {
      var y := Continue(x.p, x.pc);
      var v := t;
      var fs;
      fs, t := Performs(u, v, i, y, q);
      GoesOnTo(u, v, i, x, q);
      RunThen(Fire(s, i, x, q), es, v, GoOn(i), fs, t);
      es := es + ([GoOn(i)] + fs);
      LeftSentConcat(Written(x.out), Finish(y).out);
    }
  }

  lemma GoesOnTo(u: Sys, v: Sys, i: nat, x: Micro, q: seq<Msg>)
    requires FarSide(u, v, i) && x.pc != Idle && v.devs[i] == Node(x.p, x.pc, q)
    ensures Enabled(v, GoOn(i)) && Step(v, GoOn(i)) == Fire(v, i, Continue(x.p, x.pc), q)
  {
  }

  // The run, from where the farther device's part in it is parked

  /** Both devices have been granted the bus.  The SACK of device `i` waits at the arbiter; in the
      queue behind `i` waits what leads to the SACK of the other. */
  ghost predicate Parked(s: Sys, i: nat) {
    && Near(s, i) && i + 1 < |s.devs| && s.devs[i].q == []
    && (var d := s.devs[i];
        d.pc == Idle && d.p.sackAsserted && !d.p.bbsyAsserted && !d.p.isMaster)
    && (var d := s.devs[i + 1];
        && d.pc == Idle && !d.p.isMaster && |d.q| == 1
        && (var x := Receive(d.p, d.q[0]);
            x.out == Some(Sent(Left, Msg(i + 1, SACK, true))) && x.pc == Idle && !x.p.isMaster))
    && (forall k :: i + 2 <= k < |s.devs| ==> s.devs[k].q == [] && s.devs[k].pc == Idle && !s.devs[k].p.isMaster)
    && (forall k :: 0 <= k < i ==> !s.devs[k].p.isMaster)
    && !s.arb.sack && s.arb.outstandingBg && !s.arb.outstandingNpg && s.arbQ == [Msg(0, SACK, true)]
  }

  /** The arbiter sees SACK, and its BG-negated reaches device `i`. */
  lemma GrantArrives(u: Sys, i: nat) returns (es: seq<Event>, t: Sys)
    requires Parked(u, i)
    ensures IsRun(u, es, t) && NobodyAsks(es) && Near(t, i) && FarSide(u, t, i)
    ensures t.arb.sack && !t.arb.outstandingBg && !t.arb.outstandingNpg && t.arbQ == []
    ensures t.devs[i] == u.devs[i].(q := [Msg(i - 1, BG, false)])
  {
    hide IsRun;
    var bg := Msg(ARBITER, BG, false);
    var v := u.(arb := u.arb.(sack := true, outstandingBg := false), arbQ := []);
    assert u.devs[0].q + [bg] == [bg];
    assert Step(u, ArbRead) == Put(v, 0, bg);
    es := CarryRight(v, 0, i, bg);
    t := Put(v, i, bg.(from := i - 1));
    NoEvents(u);
    RunThen(u, [], u, ArbRead, es, t);
    es := [] + ([ArbRead] + es);
  }

  /** What the arbiter sees of a grant that is taken. */
  lemma GrantSent(p: Pr, i: nat)
    requires p.self == i && p.left == Some(i - 1) && p.right == Some(i + 1)
    ensures var e := Finish(Micro(p, GrantRight, Some(Sent(Left, Msg(i, BBSY, true)))));
            e.p == p.(bbsyAsserted := true, isMaster := true, reqMaster := false)
            && LeftSent(e.out) == [Msg(0, BBSY, true)]
  {
    var a, b := Sent(Left, Msg(i, BBSY, true)), Sent(Right, Msg(i, BBSY, true));
    FinishGrant(p, Some(a));
    assert Written(Some(a)) + Written(Write(p, Right, BBSY, true)) == [a] + [b];
    LeftSentConcat([a], [b]);
    LeftSentOne(a);
    LeftSentOne(b);
  }

  lemma LeftSentOne(x: Sent)
    ensures LeftSent([x]) == if x.to == Left then [x.msg.(from := 0)] else []
  {
    assert [x][1..] == [];
  }

  /** Device `i` becomes master. */
  lemma TakesBus(u: Sys, s: Sys, i: nat) returns (es: seq<Event>, t: Sys)
    requires Near(s, i) && FarSide(u, s, i)
    requires var d := s.devs[i];
             d.pc == Idle && d.p.sackAsserted && !d.p.bbsyAsserted && d.q == [Msg(i - 1, BG, false)]
    ensures IsRun(s, es, t) && NobodyAsks(es) && Near(t, i) && FarSide(u, t, i) && t.arb == s.arb
    ensures t.devs[i] == Node(s.devs[i].p.(bbsyAsserted := true, isMaster := true, reqMaster := false), Idle, [])
    ensures t.arbQ == s.arbQ + [Msg(0, BBSY, true)]
  {
    hide IsRun;
    var d := s.devs[i];
    var x := Receive(d.p, d.q[0]);
    assert x == Micro(d.p, GrantRight, Some(Sent(Left, Msg(i, BBSY, true))));
    ReadFires(s, i);
    assert d.q[1..] == [];
    GrantSent(d.p, i);
    es, t := Performs(u, s, i, x, []);
    NoEvents(s);
    RunThen(s, [], s, Read(i), es, t);
    es := [] + ([Read(i)] + es);
  }

  /** What the arbiter sees of a release. */
  lemma ReleaseSent(p: Pr, i: nat)
    requires p.sackAsserted && p.bbsyAsserted && p.self == i && p.left == Some(i - 1) && p.right == Some(i + 1)
    ensures Finish(Release(p)).p ==
              p.(sackAsserted := false, bbsyAsserted := false,
                 isMaster := false, reqMaster := false, relMaster := false)
    ensures LeftSent(Finish(Release(p)).out) == [Msg(0, SACK, false), Msg(0, BBSY, false)]
  {
    FinishRelease(p);
    var a, b := Sent(Left, Msg(i, SACK, false)), Sent(Right, Msg(i, SACK, false));
    var c, d := Sent(Left, Msg(i, BBSY, false)), Sent(Right, Msg(i, BBSY, false));
    assert Finish(Release(p)).out == [a] + [b] + [c] + [d];
    LeftSentConcat([a] + [b] + [c], [d]);
    LeftSentConcat([a] + [b], [c]);
    LeftSentConcat([a], [b]);
    LeftSentOne(a);
    LeftSentOne(b);
    LeftSentOne(c);
    LeftSentOne(d);
  }

  /** It gives the bus back. */
  lemma GivesBack(u: Sys, s: Sys, i: nat) returns (es: seq<Event>, t: Sys)
    requires Near(s, i) && FarSide(u, s, i) && s.devs[i].pc == Idle && s.devs[i].q == []
    requires s.devs[i].p.sackAsserted && s.devs[i].p.bbsyAsserted && s.devs[i].p.isMaster
    ensures IsRun(s, es, t) && NobodyAsks(es) && Near(t, i) && FarSide(u, t, i) && t.arb == s.arb
    ensures t.devs[i].pc == Idle && t.devs[i].q == [] && !t.devs[i].p.isMaster
    ensures t.arbQ == s.arbQ + [Msg(0, SACK, false), Msg(0, BBSY, false)]
  {
    hide IsRun, Finish;
    var p := s.devs[i].p.(relMaster := true);
    var v := s.(devs := s.devs[i := s.devs[i].(p := p)]);
    assert Step(s, MainRelease(i)) == v;
    ReleaseSent(p, i);
    es, t := Performs(u, v, i, Release(p), []);
    assert Step(v, StartRelease(i)) == Fire(v, i, Release(p), []);
    NoEvents(s);
    NoEvents(v);
    RunThen(v, [], v, StartRelease(i), es, t);
    es := [] + ([StartRelease(i)] + es);
    RunThen(s, [], s, MainRelease(i), es, t);
    es := [] + ([MainRelease(i)] + es);
  }

  /** Only then is the parked message read, and the SACK of the other device goes up. */
  lemma SlipsThrough(u: Sys, s: Sys, i: nat) returns (es: seq<Event>, t: Sys)
    requires Parked(u, i) && Near(s, i) && FarSide(u, s, i) && s.devs[i].pc == Idle && s.devs[i].q == []
    requires !s.devs[i].p.isMaster
    ensures IsRun(s, es, t) && NobodyAsks(es) && Near(t, i) && t.arb == s.arb && |t.devs| == |s.devs|
    ensures t.arbQ == s.arbQ + [Msg(0, SACK, true)]
    ensures forall k :: i <= k < |t.devs| ==> DeadNode(t.devs[k], k)
  {
    hide IsRun, DeadNode, Receive, Parked;
    Unparks(u, s, i);
    var v, m := Step(s, Read(i + 1)), Msg(i + 1, SACK, true);
    var x := Receive(v.devs[i].p, m);
    PassesSack(v.devs[i].p, i);
    ReadFires(v, i);
    assert [m][1..] == [];
    var fs;
    fs, t := Delivers(v, v, i, x, []);
    assert LeftSent(Written(x.out)) == [Msg(0, SACK, true)] by {
      assert Written(x.out)[1..] == [];
    }
    NoEvents(v);
    RunThen(v, [], v, Read(i), fs, t);
    es := [] + ([Read(i)] + fs);
    NoEvents(s);
    RunThen(s, [], s, Read(i + 1), es, t);
    es := [] + ([Read(i + 1)] + es);
    AtRest(t.devs[i], i);
    FarDead(v, t, i);
  }

  lemma FarDead(u: Sys, s: Sys, i: nat)
    requires FarSide(u, s, i) && DeadNode(u.devs[i + 1], i + 1)
    ensures DeadNode(s.devs[i + 1], i + 1)
  {
    var d, e := u.devs[i + 1], s.devs[i + 1];
    forall k | 0 <= k < |e.q| ensures !Frees(e.q[k], i + 1) && !Grants(e.q[k], i + 1) {
      if k < |d.q| {
        assert e.q[k] == e.q[..|d.q|][k] == d.q[k];
      }
    }
  }

  lemma PassesSack(p: Pr, i: nat)
    requires p.left == Some(i - 1) && p.self == i && p.right == Some(i + 1)
    ensures Receive(p, Msg(i + 1, SACK, true)) == Micro(p, Idle, Some(Sent(Left, Msg(i, SACK, true))))
  {
  }

  /** The device behind `i` reads what is parked in its queue. */
  lemma Unparks(u: Sys, s: Sys, i: nat)
    requires Parked(u, i) && Near(s, i) && FarSide(u, s, i) && s.devs[i].q == []
    ensures Enabled(s, Read(i + 1))
    ensures var v := Step(s, Read(i + 1));
            && |v.devs| == |s.devs| && v.arb == s.arb && v.arbQ == s.arbQ && Near(v, i)
            && v.devs[i] == s.devs[i].(q := [Msg(i + 1, SACK, true)])
            && forall k :: i + 1 <= k < |v.devs| ==> DeadNode(v.devs[k], k)
  {
    hide Parked, DeadNode, Receive, Step;
    UnparkedNode(u, s, i);
    assert s.devs[i].q + [Msg(i + 1, SACK, true)] == [Msg(i + 1, SACK, true)];
    ReadFires(s, i + 1);
    WiresStay(s.devs[i + 1].p, s.devs[i + 1].q[0]);
  }

  lemma UnparkedNode(u: Sys, s: Sys, i: nat)
    requires Parked(u, i) && FarSide(u, s, i)
    ensures var e := s.devs[i + 1];
            && e.pc == Idle && e.q != []
            && (var x := Receive(e.p, e.q[0]);
                && x.out == Some(Sent(Left, Msg(i + 1, SACK, true))) && x.pc == Idle
                && DeadNode(Node(x.p, x.pc, e.q[1..]), i + 1))
    ensures forall k :: i + 2 <= k < |s.devs| ==> DeadNode(s.devs[k], k)
  {
    hide Receive, Near;
    var e := s.devs[i + 1];
    assert e.q[0] == e.q[..1][0];
  }

  lemma WiresStay(p: Pr, m: Msg)
    ensures Receive(p, m).p.left == p.left
    ensures Receive(p, m).p.self == p.self
    ensures Receive(p, m).p.right == p.right
  {
    hide FdDirection, Write, Forward;
    match m.sig {
      case BBSY =>
      case BG =>
      case NPG =>
      case _ =>
    }
  }

  /** The arbiter takes that SACK for that of a device it has granted nothing. */
  lemma ArbiterReads(s: Sys) returns (es: seq<Event>, t: Sys)
    requires s.arb.sack && !s.arb.outstandingBg && !s.arb.outstandingNpg
    requires s.arbQ == [Msg(0, BBSY, true), Msg(0, SACK, false), Msg(0, BBSY, false), Msg(0, SACK, true)]
    ensures IsRun(s, es, t) && NobodyAsks(es) && t.arb.sack && t.arbQ == [] && t.devs == s.devs
  {
    var s1 := Step(s, ArbRead);
    assert s1.arbQ == [Msg(0, SACK, false), Msg(0, BBSY, false), Msg(0, SACK, true)];
    var s2 := Step(s1, ArbRead);
    assert s2.arbQ == [Msg(0, BBSY, false), Msg(0, SACK, true)];
    var s3 := Step(s2, ArbRead);
    assert s3.arbQ == [Msg(0, SACK, true)];
    t := Step(s3, ArbRead);
    es := [ArbRead, ArbRead, ArbRead, ArbRead];
    assert IsRun(s3, [ArbRead], t);
    assert [ArbRead, ArbRead][1..] == [ArbRead] && IsRun(s2, [ArbRead, ArbRead], t);
    assert [ArbRead, ArbRead, ArbRead][1..] == [ArbRead, ArbRead] && IsRun(s1, [ArbRead, ArbRead, ArbRead], t);
    assert es[1..] == [ArbRead, ArbRead, ArbRead];
  }

  lemma DiesFrom(u: Sys, i: nat) returns (es: seq<Event>, t: Sys)
    requires Inv(u) && Parked(u, i)
    ensures IsRun(u, es, t) && NobodyAsks(es) && Dead(t)
  {
    hide IsRun, Inv, DeadNode, FarSide;
    var a, s1 := GrantArrives(u, i);
    assert Near(s1, i) && i + 1 < |u.devs|;
    var b, s2 := TakesBus(u, s1, i);
    RunConcat(u, a, s1, b, s2);
    var c, s3 := GivesBack(u, s2, i);
    RunConcat(u, a + b, s2, c, s3);
    var d, s4 := SlipsThrough(u, s3, i);
    RunConcat(u, a + b + c, s3, d, s4);
    var e;
    e, t := ArbiterReads(s4);
    RunConcat(u, a + b + c + d, s4, e, t);
    es := a + b + c + d + e;
    RunKeeps(u, es, t);
    InvSound(t);
    forall k | 0 <= k < |t.devs| ensures DeadNode(t.devs[k], k) {
      if k < i {
        assert Consistent(t.devs[k]);
        AtRest(t.devs[k], k);
      }
    }
  }

  lemma AtRest(d: Node, k: nat)
    requires d.q == [] && d.pc == Idle && !d.p.isMaster
    ensures DeadNode(d, k)
  {
  }

  // Getting there, with any two devices of a chain

  lemma {:induction false} CarryTo(s: Sys, k: nat, m: Msg, to: nat) returns (es: seq<Event>)
    requires Silent(s) && to <= k < |s.devs| && m.from == k + 1 < |s.devs| && m.sig == SACK
    requires forall x :: 0 <= x <= k ==> s.devs[x].pc == Idle
    ensures IsRun(Put(s, k, m), es, Put(s, to, m.(from := to + 1))) && JustReads(es)
    decreases k
  {
    hide Step;
    es := [];
    if to < k {
      HopLeft(s, k, m);
      var fs := CarryTo(s, k - 1, m.(from := k), to);
      es := [Read(k)] + fs;
      assert es[1..] == fs;
    }
  }

  /** Both have asked, the nearer one has acknowledged its grant, and the other one's is on its way. */
  ghost predicate GrantedTwice(s: Sys, i: nat, j: nat) {
    && Silent(s) && i < j < |s.devs|
    && (forall k :: 0 <= k < |s.devs| ==>
          var d := s.devs[k];
          && d.pc == Idle && !d.p.isMaster && !d.p.bbsyAsserted
          && (d.p.sackAsserted <==> k == i) && (d.p.brIssued <==> k == j))
    && !s.arb.sack && s.arb.outstandingBg && !s.arb.outstandingNpg && s.arbQ == [Msg(0, SACK, true)]
  }

  /** The state in which the arbiter has granted both requests. */
  function AfterBoth(n: nat, i: nat, j: nat): Sys
    requires i < j < n
  {
    var s := Granted(Asked(Asked(Init(n), i), j), i);
    s.(arbQ := s.arbQ[1..])
  }

  lemma GrantsAgain(n: nat, i: nat, j: nat)
    requires i < j < n
    ensures |AfterBoth(n, i, j).devs| == n && GrantedTwice(AfterBoth(n, i, j), i, j)
    ensures var s := Granted(Asked(Asked(Init(n), i), j), i);
            Enabled(s, ArbRead) && Step(s, ArbRead) == Put(AfterBoth(n, i, j), 0, Msg(ARBITER, BG, true))
  {
    var s, bg := Granted(Asked(Asked(Init(n), i), j), i), Msg(ARBITER, BG, true);
    assert s.arbQ == [Msg(0, BR, true), Msg(0, SACK, true)];
    assert s.devs[0].q + [bg] == [bg];
  }

  lemma BothGranted(n: nat, i: nat, j: nat) returns (es: seq<Event>, s: Sys)
    requires i < j < n
    ensures GrantedTwice(s, i, j) && |s.devs| == n
    ensures IsRun(Init(n), es, Put(s, j, Msg(j - 1, BG, true))) && OnlyAsk(es, {i, j})
  {
    hide IsRun, Receive, Step, AfterBoth;
    var s0 := Init(n);
    var a := Asks(s0, i);
    var s1 := Asked(s0, i);
    var b := Asks(s1, j);
    var s2 := Asked(s1, j);
    RunConcat(s0, a, s1, b, s2);
    var c := IsGranted(s2, i);
    var s3 := Granted(s2, i);
    RunConcat(s0, a + b, s2, c, s3);
    s := AfterBoth(n, i, j);
    GrantsAgain(n, i, j);
    var bg := Msg(ARBITER, BG, true);
    var d := CarryRight(s, 0, j, bg);
    RunThen(s0, a + b + c, s3, ArbRead, d, Put(s, j, bg.(from := j - 1)));
    es := a + b + c + ([ArbRead] + d);
  }

  lemma Acknowledges(s: Sys, i: nat, j: nat)
    requires GrantedTwice(s, i, j)
    ensures var v := Put(s, j, Msg(j - 1, BG, true));
            var t := Flags(s, j, s.devs[j].p.(brIssued := false, sackAsserted := true), Idle);
            Enabled(v, Read(j)) && Step(v, Read(j)) == Put(t, j - 1, Msg(j, SACK, true))
  {
    var v, bg, m := Put(s, j, Msg(j - 1, BG, true)), Msg(j - 1, BG, true), Msg(j, SACK, true);
    var p := s.devs[j].p.(brIssued := false, sackAsserted := true);
    var t := Flags(s, j, p, Idle);
    assert Receive(s.devs[j].p, bg) == Micro(p, Idle, Some(Sent(Left, m)));
    assert [bg][1..] == [] && t.devs[j - 1].q + [m] == [m];
    assert v.devs[j := Node(p, Idle, [])] == t.devs;
  }

  /** The farther device acknowledges its grant, and its SACK stops behind the nearer one. */
  lemma SackParks(s: Sys, i: nat, j: nat) returns (es: seq<Event>, u: Sys)
    requires GrantedTwice(s, i, j) && i + 1 < j
    ensures IsRun(Put(s, j, Msg(j - 1, BG, true)), es, u) && JustReads(es) && Parked(u, i)
  {
    hide IsRun, LetsPass, Step, Receive;
    var v, m := Put(s, j, Msg(j - 1, BG, true)), Msg(j, SACK, true);
    var t := Flags(s, j, s.devs[j].p.(brIssued := false, sackAsserted := true), Idle);
    Acknowledges(s, i, j);
    es := CarryTo(t, j - 1, m, i + 1);
    u := Put(t, i + 1, m.(from := i + 2));
    PassesSack(u.devs[i + 1].p, i + 1);
    NoEvents(v);
    RunThen(v, [], v, Read(j), es, u);
    es := [] + ([Read(j)] + es);
  }

  /** Any two devices can bring it about, whoever else stays quiet: in this run only they ask, and
      the permission is lost, for ever. */
  lemma TwoDevicesLosePermission(n: nat, i: nat, j: nat) returns (es: seq<Event>, t: Sys)
    requires i < j < n
    ensures IsRun(Init(n), es, t) && OnlyAsk(es, {i, j}) && Permissions(t) == 0
  {
    hide IsRun, Permissions, Dead, Inv;
    var a, s := BothGranted(n, i, j);
    var u := Put(s, j, Msg(j - 1, BG, true));
    if i + 1 < j {
      var b, v := SackParks(s, i, j);
      RunConcat(Init(n), a, u, b, v);
      a, u := a + b, v;
    }
    assert Parked(u, i);
    InitKeeps(n);
    RunKeeps(Init(n), a, u);
    var c;
    c, t := DiesFrom(u, i);
    RunConcat(Init(n), a, u, c, t);
    es := a + c;
    DeadIsNone(t);
  }

  /** The exact condition: in all runs in which only the devices in `asking` ask for the bus the
      permission to be master stays somewhere, if and only if at most one device of the chain
      is among them. */
  lemma PermissionKeptExactly(n: nat, asking: set<nat>)
    ensures (forall es, t :: IsRun(Init(n), es, t) && OnlyAsk(es, asking) ==> Permissions(t) == 1)
            <==> (forall i, j :: i in asking && j in asking && i < n && j < n ==> i == j)
  {
    hide IsRun, Permissions;
    if i, j :| i in asking && j in asking && i < n && j < n && i != j {
      var es, t := TwoDevicesLosePermission(n, if i < j then i else j, if i < j then j else i);
    } else {
      forall es, t | IsRun(Init(n), es, t) && OnlyAsk(es, asking) ensures Permissions(t) == 1 {
        PermissionKept(n, es, t, asking);
      }
    }
  }
}
