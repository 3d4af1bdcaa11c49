/** Traffic on the priority bus: messages keep their direction and run out of hops, every
    mastership was asked for, and the NPR path is never used. */
module ChainTraffic {
  import opened Wrappers
  import opened Signals
  import opened PriorityBus
  import opened PriorityChain
  import opened ChainSafety
  import BusArbiter

  // Routing

  /** How many queues a message has still to leave, this one included: up to the far end
      when it comes from the arbiter's side, up to the arbiter's own queue otherwise. */
  function Hops(m: Msg, i: int, n: nat): nat
    requires -1 <= i < n
  {
    if i == ARBITER then 1 else if m.from == i - 1 then n - i else i + 2
  }

  function QueueHops(q: seq<Msg>, i: int, n: nat): nat
    requires -1 <= i < n
  {
    if q == [] then 0 else Hops(q[0], i, n) + QueueHops(q[1..], i, n)
  }

  function DevHops(devs: seq<Node>, k: nat, n: nat): nat
    requires k + |devs| == n
  {
    if devs == [] then 0 else QueueHops(devs[0].q, k, n) + DevHops(devs[1..], k + 1, n)
  }

  function SysHops(s: Sys): nat
    requires |s.devs| > 0
  {
    QueueHops(s.arbQ, ARBITER, |s.devs|) + DevHops(s.devs, 0, |s.devs|)
  }

  lemma {:induction false} QueueHopsAppend(q: seq<Msg>, m: Msg, i: int, n: nat)
    requires -1 <= i < n
    ensures QueueHops(q + [m], i, n) == QueueHops(q, i, n) + Hops(m, i, n)
  {
    if q == [] {
      assert (q + [m])[1..] == [];
    } else {
      assert (q + [m])[1..] == q[1..] + [m];
      QueueHopsAppend(q[1..], m, i, n);
    }
  }

  lemma {:induction false} DevHopsUpdate(devs: seq<Node>, k: nat, n: nat, i: nat, d: Node)
    requires k + |devs| == n && i < |devs|
    ensures DevHops(devs[i := d], k, n)
            == DevHops(devs, k, n) - QueueHops(devs[i].q, k + i, n) + QueueHops(d.q, k + i, n)
  {
    if i == 0 {
      assert devs[i := d][1..] == devs[1..];
    } else {
      assert devs[i := d][1..] == devs[1..][i - 1 := d];
      DevHopsUpdate(devs[1..], k + 1, n, i - 1, d);
    }
  }

  /** The hops a message written by device `i` has before it. */
  function WriteHops(out: Option<Sent>, i: nat, n: nat): nat
    requires i < n
  {
    if out.None? then 0
    else if out.value.to == Left then i + 1
    else if out.value.to == Right && i + 1 < n then n - i - 1
    else 0
  }

  lemma DeliverHops(s: Sys, i: nat, out: Option<Sent>)
    requires i < |s.devs| && (out.Some? ==> out.value.msg.from == i)
    ensures |Deliver(s, i, out).devs| == |s.devs|
    ensures SysHops(Deliver(s, i, out)) == SysHops(s) + WriteHops(out, i, |s.devs|)
  {
    var n := |s.devs|;
    if out.Some? {
      var m := out.value.msg;
      if out.value.to == Left && i == 0 {
        QueueHopsAppend(s.arbQ, m, ARBITER, n);
      } else if out.value.to == Left {
        var d := s.devs[i - 1];
        QueueHopsAppend(d.q, m, i - 1, n);
        DevHopsUpdate(s.devs, 0, n, i - 1, d.(q := d.q + [m]));
      } else if out.value.to == Right && i + 1 < n {
        var d := s.devs[i + 1];
        QueueHopsAppend(d.q, m, i + 1, n);
        DevHopsUpdate(s.devs, 0, n, i + 1, d.(q := d.q + [m]));
      }
    }
  }

  lemma FireHops(s: Sys, i: nat, x: Micro, q: seq<Msg>)
    requires i < |s.devs| && (x.out.Some? ==> x.out.value.msg.from == i)
    ensures |Fire(s, i, x, q).devs| == |s.devs|
    ensures SysHops(Fire(s, i, x, q)) + QueueHops(s.devs[i].q, i, |s.devs|)
            == SysHops(s) + QueueHops(q, i, |s.devs|) + WriteHops(x.out, i, |s.devs|)
  {
    DevHopsUpdate(s.devs, 0, |s.devs|, i, Node(x.p, x.pc, q));
    DeliverHops(s.(devs := s.devs[i := Node(x.p, x.pc, q)]), i, x.out);
  }

  /** Does device `i` pass on the message it reads, rather than answer it? */
  predicate Passes(p: Pr, m: Msg) {
    !(m.sig == BG && ((p.brIssued && m.asserted) || (p.sackAsserted && !m.asserted)))
  }

  /** A passed message goes on in the direction it came in, marked as coming from here,
      with one hop less; only the last device drops it, when it has no hop left. */
  lemma PassedOn(s: Sys, i: nat)
    requires Sound(s) && Enabled(s, Read(i)) && Passes(s.devs[i].p, s.devs[i].q[0])
    ensures var m := s.devs[i].q[0]; var n := |s.devs|; var x := Receive(s.devs[i].p, m);
            if m.from == i - 1 then
              (if i + 1 < n then x.out == Some(Sent(Right, Msg(i, m.sig, m.asserted)))
               else x.out == None && Hops(m, i, n) == 1)
            else x.out == Some(Sent(Left, Msg(i, m.sig, m.asserted)))
    ensures var m := s.devs[i].q[0];
            WriteHops(Receive(s.devs[i].p, m).out, i, |s.devs|) == Hops(m, i, |s.devs|) - 1
  {
    assert Deliverable(s.devs[i].q[0], i, |s.devs|);
  }

  /** Does a step put a message on the bus that was not there before?  None puts two. */
  predicate Originates(s: Sys, e: Event)
    requires Enabled(s, e)
  {
    match e
    case StartRequest(i) => Request(s.devs[i].p).out.Some?
    case StartRelease(i) => Release(s.devs[i].p).out.Some?
    case GoOn(i) => Continue(s.devs[i].p, s.devs[i].pc).out.Some?
    case Read(i) =>
      !Passes(s.devs[i].p, s.devs[i].q[0]) && Receive(s.devs[i].p, s.devs[i].q[0]).out.Some?
    case ArbRead => BusArbiter.Receive(s.arb, s.arbQ[0]).out.Some?
    case MainRequest(_) => false
    case MainRelease(_) => false
  }

  predicate Reads(e: Event) { e.Read? || e.ArbRead? }

  /** A step of device `i` that reads nothing. */
  lemma ActHops(s: Sys, i: nat, x: Micro)
    requires i < |s.devs| && (x.out.Some? ==> x.out.value.msg.from == i)
    ensures SysHops(Fire(s, i, x, s.devs[i].q)) <= SysHops(s) + if x.out.Some? then |s.devs| else 0
  {
    hide SysHops, QueueHops, Fire;
    FireHops(s, i, x, s.devs[i].q);
  }

  lemma MainHops(s: Sys, i: nat, p: Pr)
    requires i < |s.devs|
    ensures SysHops(s.(devs := s.devs[i := s.devs[i].(p := p)])) == SysHops(s)
  {
    DevHopsUpdate(s.devs, 0, |s.devs|, i, s.devs[i].(p := p));
  }

  lemma StepHops(s: Sys, e: Event)
    requires Sound(s) && Enabled(s, e) && |s.devs| > 0
    ensures |Step(s, e).devs| == |s.devs|
    ensures SysHops(Step(s, e)) + (if Reads(e) then 1 else 0)
            <= SysHops(s) + if Originates(s, e) then |s.devs| else 0
  {
    hide SysHops, Traffic;
    match e {
      case StartRequest(i) => ActHops(s, i, Request(s.devs[i].p));
      case StartRelease(i) => ActHops(s, i, Release(s.devs[i].p));
      case GoOn(i) => ActHops(s, i, Continue(s.devs[i].p, s.devs[i].pc));
      case Read(i) => ReadHops(s, i);
      case ArbRead => ArbHops(s);
      case MainRequest(i) => MainHops(s, i, s.devs[i].p.(reqMaster := true));
      case MainRelease(i) => MainHops(s, i, s.devs[i].p.(relMaster := true));
    }
  }

  lemma ReadHops(s: Sys, i: nat)
    requires Sound(s) && Enabled(s, Read(i)) && |s.devs| > 0
    ensures |Step(s, Read(i)).devs| == |s.devs|
    ensures SysHops(Step(s, Read(i))) + 1 <= SysHops(s) + if Originates(s, Read(i)) then |s.devs| else 0
  {
    var d := s.devs[i];
    assert Deliverable(d.q[0], i, |s.devs|);
    FireHops(s, i, Receive(d.p, d.q[0]), d.q[1..]);
    if Passes(d.p, d.q[0]) {
      PassedOn(s, i);
    }
  }

  lemma ArbHops(s: Sys)
    requires Sound(s) && Enabled(s, ArbRead) && |s.devs| > 0
    ensures |Step(s, ArbRead).devs| == |s.devs|
    ensures SysHops(Step(s, ArbRead)) + 1 <= SysHops(s) + if Originates(s, ArbRead) then |s.devs| else 0
  {
    var r := BusArbiter.Receive(s.arb, s.arbQ[0]);
    var n := |s.devs|;
    assert QueueHops(s.arbQ, ARBITER, n) == 1 + QueueHops(s.arbQ[1..], ARBITER, n);
    if r.out.Some? {
      var d := s.devs[0];
      assert r.out.value.from == ARBITER;
      QueueHopsAppend(d.q, r.out.value, 0, n);
      DevHopsUpdate(s.devs, 0, n, 0, d.(q := d.q + [r.out.value]));
      assert Step(s, ArbRead).devs == s.devs[0 := d.(q := d.q + [r.out.value])];
    } else {
      assert Step(s, ArbRead).devs == s.devs;
    }
  }

  function CountReads(es: seq<Event>): nat {
    if es == [] then 0 else (if Reads(es[0]) then 1 else 0) + CountReads(es[1..])
  }

  ghost function CountOriginated(s: Sys, es: seq<Event>, t: Sys): nat
    requires IsRun(s, es, t)
    decreases |es|
  {
    if es == [] then 0
    else (if Originates(s, es[0]) then 1 else 0) + CountOriginated(Step(s, es[0]), es[1..], t)
  }

  /** The hops the messages originated by a run can use up. */
  ghost function Allowance(s: Sys, es: seq<Event>, t: Sys): nat
    requires IsRun(s, es, t)
    decreases |es|
  {
    if es == [] then 0
    else (if Originates(s, es[0]) then |s.devs| else 0) + Allowance(Step(s, es[0]), es[1..], t)
  }

  lemma {:induction false} ReadsArePaid(s: Sys, es: seq<Event>, t: Sys)
    requires Inv(s) && IsRun(s, es, t) && |s.devs| > 0
    ensures |t.devs| == |s.devs|
    ensures CountReads(es) + SysHops(t) <= SysHops(s) + Allowance(s, es, t)
    decreases |es|
  {
    if es != [] {
      StepHops(s, es[0]);
      StepKeeps(s, es[0]);
      ReadsArePaid(Step(s, es[0]), es[1..], t);
    }
  }

  lemma StepSize(s: Sys, e: Event)
    requires Enabled(s, e)
    ensures |Step(s, e).devs| == |s.devs|
  {
  }

  lemma {:induction false} AllowanceIs(s: Sys, es: seq<Event>, t: Sys, n: nat)
    requires IsRun(s, es, t) && n == |s.devs|
    ensures Allowance(s, es, t) == Scaled(n, CountOriginated(s, es, t))
    decreases |es|
  {
    if es != [] {
      StepSize(s, es[0]);
      AllowanceIs(Step(s, es[0]), es[1..], t, n);
      ScaledAdd(n, if Originates(s, es[0]) then 1 else 0, CountOriginated(Step(s, es[0]), es[1..], t));
    }
  }

  function Scaled(n: nat, k: nat): nat { n * k }

  lemma ScaledAdd(n: nat, a: nat, b: nat)
    requires a <= 1
    ensures Scaled(n, a + b) == (if a == 1 then n else 0) + Scaled(n, b)
  {
  }

  lemma {:induction false} DevicesStay(s: Sys, es: seq<Event>, t: Sys)
    requires Inv(s) && IsRun(s, es, t) && |s.devs| > 0
    ensures |t.devs| == |s.devs|
    decreases |es|
  {
    if es != [] {
      StepHops(s, es[0]);
      StepKeeps(s, es[0]);
      DevicesStay(Step(s, es[0]), es[1..], t);
    }
  }

  /** Every message read is paid for: from any reachable state on, a run reads at most as many
      messages as were in flight or originated, each once per node on its side. */
  lemma ReadsPerMessage(n: nat, ds: seq<Event>, s: Sys, es: seq<Event>, t: Sys)
    requires n > 0 && IsRun(Init(n), ds, s) && IsRun(s, es, t)
    ensures |s.devs| == |t.devs| == n
    ensures CountReads(es) + SysHops(t) <= SysHops(s) + n * CountOriginated(s, es, t)
  {
    InitKeeps(n);
    RunKeeps(Init(n), ds, s);
    DevicesStay(Init(n), ds, s);
    ReadsArePaid(s, es, t);
    AllowanceIs(s, es, t, n);
  }

  // Every mastership was asked for

  /** `e` is device `i` completing the writes of its bus request. */
  predicate AsksBus(s: Sys, e: Event, i: nat) {
    e == GoOn(i) && i < |s.devs| && s.devs[i].pc == BrRight
  }

  predicate BecomesMaster(s: Sys, e: Event, i: nat) {
    Enabled(s, e) && i < |s.devs| && !s.devs[i].p.isMaster
    && i < |Step(s, e).devs| && Step(s, e).devs[i].p.isMaster
  }

  ghost function CountAsked(s: Sys, es: seq<Event>, t: Sys, i: nat): nat
    requires IsRun(s, es, t)
    decreases |es|
  {
    if es == [] then 0
    else (if AsksBus(s, es[0], i) then 1 else 0) + CountAsked(Step(s, es[0]), es[1..], t, i)
  }

  ghost function CountMastered(s: Sys, es: seq<Event>, t: Sys, i: nat): nat
    requires IsRun(s, es, t)
    decreases |es|
  {
    if es == [] then 0
    else (if BecomesMaster(s, es[0], i) then 1 else 0) + CountMastered(Step(s, es[0]), es[1..], t, i)
  }

  /** Requests of device `i` that have not led to mastership yet. */
  function Credit(s: Sys, i: nat): nat
    requires i < |s.devs|
  {
    var p := s.devs[i].p;
    (if p.brIssued then 1 else 0) + (if p.sackAsserted && !p.isMaster then 1 else 0)
  }

  lemma StepCredit(s: Sys, e: Event, i: nat)
    requires Sound(s) && Enabled(s, e) && i < |s.devs|
    ensures |Step(s, e).devs| == |s.devs|
    ensures (if BecomesMaster(s, e, i) then 1 else 0) + Credit(Step(s, e), i)
            <= (if AsksBus(s, e, i) then 1 else 0) + Credit(s, i)
  {
    if !e.ArbRead? {
      NodeOf(s, e);
    }
  }

  /** Only the stepping device changes its own flags. */
  lemma NodeOf(s: Sys, e: Event)
    requires Enabled(s, e) && !e.ArbRead?
    ensures |Step(s, e).devs| == |s.devs|
    ensures forall k :: 0 <= k < |s.devs| && k != e.i ==> Step(s, e).devs[k].p == s.devs[k].p
    ensures var d := s.devs[e.i];
            Step(s, e).devs[e.i].p == match e
              case MainRequest(_) => d.p.(reqMaster := true)
              case MainRelease(_) => d.p.(relMaster := true)
              case StartRequest(_) => Request(d.p).p
              case StartRelease(_) => Release(d.p).p
              case Read(_) => Receive(d.p, d.q[0]).p
              case GoOn(_) => Continue(d.p, d.pc).p
  {
  }

  lemma {:induction false} RunCredit(s: Sys, es: seq<Event>, t: Sys, i: nat)
    requires Inv(s) && IsRun(s, es, t) && i < |s.devs|
    ensures |t.devs| == |s.devs|
    ensures CountMastered(s, es, t, i) + Credit(t, i) <= CountAsked(s, es, t, i) + Credit(s, i)
    decreases |es|
  {
    if es != [] {
      StepCredit(s, es[0], i);
      StepKeeps(s, es[0]);
      RunCredit(Step(s, es[0]), es[1..], t, i);
    }
  }

  /** In every run a device becomes master at most as often as it asked for the bus. */
  lemma NoMasterWithoutRequest(n: nat, es: seq<Event>, t: Sys, i: nat)
    requires IsRun(Init(n), es, t) && i < n
    ensures CountMastered(Init(n), es, t, i) <= CountAsked(Init(n), es, t, i)
  {
    hide Step, IsRun, CountAsked, CountMastered, Inv;
    InitKeeps(n);
    RunCredit(Init(n), es, t, i);
  }

  /** The NPR path is dead: no such request or grant is ever in flight or outstanding. */
  lemma NprPathDead(n: nat, es: seq<Event>, t: Sys)
    requires IsRun(Init(n), es, t)
    ensures !t.arb.outstandingNpg
    ensures forall i :: 0 <= i < |t.devs| ==> !t.devs[i].p.nprIssued
    ensures forall k :: 0 <= k < |t.arbQ| ==> t.arbQ[k].sig != NPR && t.arbQ[k].sig != NPG
    ensures forall i, k :: 0 <= i < |t.devs| && 0 <= k < |t.devs[i].q| ==>
              t.devs[i].q[k].sig != NPR && t.devs[i].q[k].sig != NPG
  {
    InitKeeps(n);
    RunKeeps(Init(n), es, t);
    assert forall k :: 0 <= k < |t.arbQ| ==> Deliverable(t.arbQ[k], ARBITER, |t.devs|);
    assert forall i, k :: 0 <= i < |t.devs| && 0 <= k < |t.devs[i].q| ==> Deliverable(t.devs[i].q[k], i, |t.devs|);
  }
}
