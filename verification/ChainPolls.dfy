/** Whole polls: a run in which every device finishes what it starts is a run of the
    step relation, and between polls the permission to be master is in one place. */
module ChainPolls {
  import opened Wrappers
  import opened Signals
  import opened PriorityBus
  import opened PriorityChain
  import opened BusStreams
  import opened ArbitrationCore
  import opened ChainSafety

  function DeliverAll(s: Sys, i: nat, out: seq<Sent>): (t: Sys)
    requires i < |s.devs|
    ensures |t.devs| == |s.devs|
    decreases |out|
  {
    if out == [] then s else DeliverAll(Deliver(s, i, Some(out[0])), i, out[1..])
  }

  function SetNode(s: Sys, i: nat, p: Pr, pc: Pc, q: seq<Msg>): Sys
    requires i < |s.devs|
  {
    s.(devs := s.devs[i := Node(p, pc, q)])
  }

  /** Device `i` polls once, without being interrupted. */
  function PollStep(s: Sys, i: nat): Sys
    requires i < |s.devs|
  {
    var r := Poll(s.devs[i].p, s.devs[i].q);
    DeliverAll(SetNode(s, i, r.0.p, Idle, r.1), i, r.0.out)
  }

  /** Device `i` runs the rest of its action. */
  function FinishStep(s: Sys, i: nat): Sys
    requires i < |s.devs|
  {
    var d := s.devs[i];
    var e := Finish(Micro(d.p, d.pc, None));
    DeliverAll(SetNode(s, i, e.p, Idle, d.q), i, e.out)
  }

  lemma DeliverCommutes(s: Sys, i: nat, out: Option<Sent>, d: Node)
    requires i < |s.devs|
    ensures var t := Deliver(s, i, out);
            |t.devs| == |s.devs| && t.devs[i] == s.devs[i]
            && t.(devs := t.devs[i := d]) == Deliver(s.(devs := s.devs[i := d]), i, out)
  {
    var t := Deliver(s, i, out);
    var u := Deliver(s.(devs := s.devs[i := d]), i, out);
    assert t.devs[i := d] == u.devs;
  }

  lemma {:induction false} DeliverAllCommutes(s: Sys, i: nat, out: seq<Sent>, d: Node)
    requires i < |s.devs|
    ensures var t := DeliverAll(s, i, out);
            t.devs[i] == s.devs[i]
            && t.(devs := t.devs[i := d]) == DeliverAll(s.(devs := s.devs[i := d]), i, out)
    decreases |out|
  {
    if out != [] {
      DeliverCommutes(s, i, Some(out[0]), d);
      DeliverAllCommutes(Deliver(s, i, Some(out[0])), i, out[1..], d);
    }
  }

  lemma {:induction false} DeliverAllConcat(s: Sys, i: nat, u: seq<Sent>, v: seq<Sent>)
    requires i < |s.devs|
    ensures DeliverAll(s, i, u + v) == DeliverAll(DeliverAll(s, i, u), i, v)
    decreases |u|
  {
    if u == [] {
      assert u + v == v;
    } else {
      assert (u + v)[1..] == u[1..] + v;
      DeliverAllConcat(Deliver(s, i, Some(u[0])), i, u[1..], v);
    }
  }

  lemma DeliverOne(s: Sys, i: nat, out: Option<Sent>)
    requires i < |s.devs|
    ensures DeliverAll(s, i, Written(out)) == Deliver(s, i, out)
  {
    if out.Some? {
      assert Written(out)[1..] == [];
    }
  }

  lemma {:induction false} RunConcat(s: Sys, es: seq<Event>, t: Sys, fs: seq<Event>, u: Sys)
    requires IsRun(s, es, t) && IsRun(t, fs, u)
    ensures IsRun(s, es + fs, u)
    decreases |es|
  {
    if es == [] {
      assert es + fs == fs;
    } else {
      assert (es + fs)[1..] == es[1..] + fs;
      RunConcat(Step(s, es[0]), es[1..], t, fs, u);
    }
  }

  /** Firing one step and finishing is finishing the whole action. */
  lemma FireThenFinish(s: Sys, i: nat, x: Micro, q: seq<Msg>)
    requires i < |s.devs|
    ensures var e := Finish(x);
            |Fire(s, i, x, q).devs| == |s.devs|
            && FinishStep(Fire(s, i, x, q), i) == DeliverAll(SetNode(s, i, e.p, Idle, q), i, e.out)
            && Fire(s, i, x, q).devs[i] == Node(x.p, x.pc, q)
  {
    var a := SetNode(s, i, x.p, x.pc, q);
    var f := Finish(Micro(x.p, x.pc, None));
    DeliverCommutes(a, i, x.out, Node(f.p, Idle, q));
    DeliverOne(SetNode(s, i, f.p, Idle, q), i, x.out);
    DeliverAllConcat(SetNode(s, i, f.p, Idle, q), i, Written(x.out), f.out);
    assert Finish(x).p == f.p && Finish(x).out == Written(x.out) + f.out by {
      assert [] + f.out == f.out;
      if x.pc == Idle {
        assert Written(x.out) + [] == Written(x.out);
      } else {
        var rest := Finish(Continue(x.p, x.pc));
        assert [] + rest.out == rest.out;
      }
    }
    assert a.devs[i := Node(f.p, Idle, q)] == s.devs[i := Node(f.p, Idle, q)];
  }

  /** The events of a run that start something, without those that go on with it. */
  function Begins(es: seq<Event>): seq<Event> {
    if es == [] then [] else (if es[0].GoOn? then [] else [es[0]]) + Begins(es[1..])
  }

  lemma {:induction false} BeginsConcat(es: seq<Event>, fs: seq<Event>)
    ensures Begins(es + fs) == Begins(es) + Begins(fs)
  {
    if es == [] {
      assert es + fs == fs;
    } else {
      assert (es + fs)[1..] == es[1..] + fs;
      BeginsConcat(es[1..], fs);
    }
  }

  lemma {:induction false} FinishIsRun(s: Sys, i: nat) returns (es: seq<Event>)
    requires i < |s.devs|
    ensures IsRun(s, es, FinishStep(s, i)) && Begins(es) == []
    decreases Rank(s.devs[i].pc)
  {
    var d := s.devs[i];
    if d.pc == Idle {
      es := [];
      assert s.devs[i := d] == s.devs;
    } else {
      var x := Continue(d.p, d.pc);
      var t := Step(s, GoOn(i));
      FireThenFinish(s, i, x, d.q);
      var rest := FinishIsRun(t, i);
      es := [GoOn(i)] + rest;
      assert Written(None) + Finish(x).out == Finish(x).out;
      assert es[1..] == rest;
    }
  }

  /** What a pass of the loop has to start: a request or else a release if one is due, and
      reading, if there is anything to read. */
  function DueEvents(d: Node, i: nat): seq<Event> {
    (if d.p.reqMaster && !d.p.isMaster then [StartRequest(i)]
     else if d.p.relMaster && d.p.isMaster then [StartRelease(i)] else [])
    + (if d.q != [] then [Read(i)] else [])
  }

  /** A whole poll is a run of single steps, which starts exactly what is due. */
  lemma PollIsRun(s: Sys, i: nat) returns (es: seq<Event>)
    requires i < |s.devs| && s.devs[i].pc == Idle
    ensures IsRun(s, es, PollStep(s, i)) && Begins(es) == DueEvents(s.devs[i], i)
  {
    var d := s.devs[i];
    var f := Finish(PollFlags(d.p));
    var t := DeliverAll(SetNode(s, i, f.p, Idle, d.q), i, f.out);
    es := FlagsAreRun(s, i);
    DeliverAllCommutes(SetNode(s, i, f.p, Idle, d.q), i, f.out, Node(f.p, Idle, d.q));
    if d.q == [] {
      assert PollStep(s, i) == t;
    } else {
      var x := Receive(f.p, d.q[0]);
      FireThenFinish(t, i, x, d.q[1..]);
      var u := Step(t, Read(i));
      var rest := FinishIsRun(u, i);
      var r := Finish(x);
      DeliverAllCommutes(SetNode(s, i, f.p, Idle, d.q), i, f.out, Node(r.p, Idle, d.q[1..]));
      DeliverAllConcat(SetNode(s, i, r.p, Idle, d.q[1..]), i, f.out, r.out);
      var d1 := Node(r.p, Idle, d.q[1..]);
      assert SetNode(s, i, f.p, Idle, d.q).devs[i := d1] == s.devs[i := d1];
      assert FinishStep(u, i) == PollStep(s, i);
      assert ([Read(i)] + rest)[1..] == rest;
      RunConcat(s, es, t, [Read(i)] + rest, PollStep(s, i));
      BeginsConcat(es, [Read(i)] + rest);
      es := es + ([Read(i)] + rest);
    }
  }

  lemma FlagsAreRun(s: Sys, i: nat) returns (es: seq<Event>)
    requires i < |s.devs| && s.devs[i].pc == Idle
    ensures var d := s.devs[i]; var f := Finish(PollFlags(d.p));
            IsRun(s, es, DeliverAll(SetNode(s, i, f.p, Idle, d.q), i, f.out))
    ensures Begins(es) == DueEvents(s.devs[i].(q := []), i)
  {
    var d := s.devs[i];
    var x := PollFlags(d.p);
    FireThenFinish(s, i, x, d.q);
    if d.p.reqMaster && !d.p.isMaster {
      var rest := FinishIsRun(Step(s, StartRequest(i)), i);
      es := [StartRequest(i)] + rest;
      assert es[1..] == rest;
    } else if d.p.relMaster && d.p.isMaster {
      var rest := FinishIsRun(Step(s, StartRelease(i)), i);
      es := [StartRelease(i)] + rest;
      assert es[1..] == rest;
    } else {
      es := [];
      assert s.devs[i := Node(d.p, Idle, d.q)] == s.devs;
    }
  }

  // Runs made of whole polls

  datatype Move = Ask(i: nat) | GiveBack(i: nat) | PollDevice(i: nat) | Arbitrate

  predicate CanMove(s: Sys, m: Move) {
    match m
    case Ask(i) => Enabled(s, MainRequest(i))
    case GiveBack(i) => Enabled(s, MainRelease(i))
    case PollDevice(i) => i < |s.devs|
    case Arbitrate => Enabled(s, ArbRead)
  }

  function Make(s: Sys, m: Move): Sys
    requires CanMove(s, m)
  {
    match m
    case Ask(i) => Step(s, MainRequest(i))
    case GiveBack(i) => Step(s, MainRelease(i))
    case PollDevice(i) => PollStep(s, i)
    case Arbitrate => Step(s, ArbRead)
  }

  ghost predicate IsPolledRun(s: Sys, ms: seq<Move>, t: Sys)
    decreases |ms|
  {
    if ms == [] then t == s
    else CanMove(s, ms[0]) && IsPolledRun(Make(s, ms[0]), ms[1..], t)
  }

  ghost predicate AllIdle(s: Sys) {
    forall i :: 0 <= i < |s.devs| ==> s.devs[i].pc == Idle
  }

  lemma {:induction false} DeliverAllIdle(s: Sys, i: nat, out: seq<Sent>)
    requires i < |s.devs| && AllIdle(s)
    ensures AllIdle(DeliverAll(s, i, out))
    decreases |out|
  {
    if out != [] {
      DeliverAllIdle(Deliver(s, i, Some(out[0])), i, out[1..]);
    }
  }

  lemma MakeKeeps(s: Sys, m: Move)
    requires Inv(s) && AllIdle(s) && CanMove(s, m)
    ensures Inv(Make(s, m)) && AllIdle(Make(s, m))
  {
    hide Inv;
    if m.PollDevice? {
      PollKeeps(s, m.i);
    } else {
      var e := if m.Ask? then MainRequest(m.i) else if m.GiveBack? then MainRelease(m.i) else ArbRead;
      assert Make(s, m) == Step(s, e);
      StepKeeps(s, e);
    }
  }

  lemma PollKeeps(s: Sys, i: nat)
    requires Inv(s) && AllIdle(s) && i < |s.devs|
    ensures Inv(PollStep(s, i)) && AllIdle(PollStep(s, i))
  {
    hide Inv;
    var es := PollIsRun(s, i);
    RunKeeps(s, es, PollStep(s, i));
    var r := Poll(s.devs[i].p, s.devs[i].q);
    DeliverAllIdle(SetNode(s, i, r.0.p, Idle, r.1), i, r.0.out);
  }

  lemma {:induction false} PolledRunKeeps(s: Sys, ms: seq<Move>, t: Sys)
    requires Inv(s) && AllIdle(s) && IsPolledRun(s, ms, t)
    ensures Inv(t) && AllIdle(t)
    decreases |ms|
  {
    if ms != [] {
      MakeKeeps(s, ms[0]);
      PolledRunKeeps(Make(s, ms[0]), ms[1..], t);
    }
  }

  // The permission to be master, counted over the places it can be

  function Masters(devs: seq<Node>): nat {
    if devs == [] then 0 else (if devs[0].p.isMaster then 1 else 0) + Masters(devs[1..])
  }

  /** SACK-negated messages on their way to the arbiter. */
  ghost function SackNegations(s: Sys): nat {
    Count(LeftWord(s.arbQ, ARBITER), SackOff) + Total(Lefts(s.devs), SackOff)
  }

  /** BG-negated messages on their way down the chain. */
  ghost function GrantNegations(s: Sys): nat {
    Total(Rights(s.devs), GrantOff)
  }

  lemma {:induction false} MastersCount(devs: seq<Node>, a: int)
    requires forall i :: 0 <= i < |devs| ==> (devs[i].p.isMaster <==> i == a)
    ensures Masters(devs) == if 0 <= a < |devs| then 1 else 0
  {
    if devs != [] {
      MastersCount(devs[1..], a - 1);
    }
  }

  /** Between polls there is never more than one permission to be master: at the arbiter,
      in a SACK-negated, in a BG-negated, or with the one master. */
  lemma TokenConserved(n: nat, ms: seq<Move>, t: Sys)
    requires IsPolledRun(Init(n), ms, t)
    ensures (if t.arb.sack then 0 else 1) + SackNegations(t) + GrantNegations(t) + Masters(t.devs) <= 1
  {
    hide Leftward, Rightward, Cyclic, GrantLast, Plain, LeftWord, RightWord;
    InitKeeps(n);
    PolledRunKeeps(Init(n), ms, t);
    var c := Abs(t);
    var a :| InvAt(c, a);
    forall i | 0 <= i < |t.devs| ensures t.devs[i].p.isMaster <==> i == a {
      assert c.phase[i] == PhaseOf(t.devs[i]);
    }
    MastersCount(t.devs, a);
    if a >= 0 {
      assert c.phase[a] == PhaseOf(t.devs[a]);
    }
  }
}
