/** What the main threads' requests can cost: every message put on the bus is owed to a request
    or a release, so these alone bound how much is read. */
module ChainBudget {
  import opened Wrappers
  import opened Signals
  import opened PriorityBus
  import opened PriorityChain
  import opened ChainSafety
  import opened ChainTraffic
  import BusArbiter

  const REQUEST_COST := 7
  const RELEASE_COST := 4

  /** The messages that a message in the queue of node `i` can still give rise to: a BR a grant,
      the grant a SACK, the SACK a negated grant, and that one BBSY on both sides. */
  function MsgDue(m: Msg, i: int): nat {
    match m.sig
    case BR => if m.from == i - 1 then 0 else 5
    case BG => if m.asserted then 4 else 2
    case SACK => if m.from != i - 1 && m.asserted then 3 else 0
    case _ => 0
  }

  function QueueDue(q: seq<Msg>, i: int): nat {
    if q == [] then 0 else MsgDue(q[0], i) + QueueDue(q[1..], i)
  }

  /** What the action that a device is in has still to write. */
  function PcDue(pc: Pc): nat {
    match pc
    case Idle => 0
    case BrRight => 1
    case GrantRight => 1
    case GrantSet => 0
    case RelSackRight => 3
    case RelSackClear => 2
    case RelBbsyLeft => 2
    case RelBbsyRight => 1
    case RelBbsyClear => 0
  }

  predicate Releasing(pc: Pc) {
    pc == RelSackRight || pc == RelSackClear || pc == RelBbsyLeft || pc == RelBbsyRight || pc == RelBbsyClear
  }

  /** The same for a device: its action, and the requests of its main thread not taken up. */
  function SelfDue(p: Pr, pc: Pc): nat {
    PcDue(pc) + (if p.reqMaster && pc != BrRight then REQUEST_COST else 0)
    + (if p.relMaster && !Releasing(pc) then RELEASE_COST else 0)
  }

  function NodeDue(d: Node, i: int): nat { SelfDue(d.p, d.pc) + QueueDue(d.q, i) }

  function DevDue(devs: seq<Node>, k: nat): nat {
    if devs == [] then 0 else NodeDue(devs[0], k) + DevDue(devs[1..], k + 1)
  }

  function Due(s: Sys): nat { QueueDue(s.arbQ, ARBITER) + DevDue(s.devs, 0) }

  lemma {:induction false} QueueDueAppend(q: seq<Msg>, m: Msg, i: int)
    ensures QueueDue(q + [m], i) == QueueDue(q, i) + MsgDue(m, i)
  {
    if q == [] {
      assert (q + [m])[1..] == [];
    } else {
      assert (q + [m])[1..] == q[1..] + [m];
      QueueDueAppend(q[1..], m, i);
    }
  }

  lemma {:induction false} DevDueUpdate(devs: seq<Node>, k: nat, i: nat, d: Node)
    requires i < |devs|
    ensures DevDue(devs[i := d], k) == DevDue(devs, k) - NodeDue(devs[i], k + i) + NodeDue(d, k + i)
  {
    if i == 0 {
      assert devs[i := d][1..] == devs[1..];
    } else {
      assert devs[i := d][1..] == devs[1..][i - 1 := d];
      DevDueUpdate(devs[1..], k + 1, i - 1, d);
    }
  }

  /** What a message written by device `i` can give rise to where it is delivered. */
  function WriteDue(out: Option<Sent>, i: nat, n: nat): nat {
    if out.None? then 0
    else if out.value.to == Left then MsgDue(out.value.msg, i - 1)
    else if out.value.to == Right && i + 1 < n then MsgDue(out.value.msg, i + 1)
    else 0
  }

  lemma NodeDueAppend(d: Node, m: Msg, i: int)
    ensures NodeDue(d.(q := d.q + [m]), i) == NodeDue(d, i) + MsgDue(m, i)
  {
    hide MsgDue;
    QueueDueAppend(d.q, m, i);
  }

  lemma DeliverDue(s: Sys, i: nat, out: Option<Sent>)
    requires i < |s.devs|
    ensures Due(Deliver(s, i, out)) == Due(s) + WriteDue(out, i, |s.devs|)
  {
    hide NodeDue, MsgDue, QueueDue, DevDue;
    if out.Some? {
      var m := out.value.msg;
      if out.value.to == Left && i == 0 {
        QueueDueAppend(s.arbQ, m, ARBITER);
      } else if out.value.to == Left {
        var d := s.devs[i - 1];
        NodeDueAppend(d, m, i - 1);
        DevDueUpdate(s.devs, 0, i - 1, d.(q := d.q + [m]));
      } else if out.value.to == Right && i + 1 < |s.devs| {
        var d := s.devs[i + 1];
        NodeDueAppend(d, m, i + 1);
        DevDueUpdate(s.devs, 0, i + 1, d.(q := d.q + [m]));
      }
    }
  }

  lemma FireDue(s: Sys, i: nat, x: Micro, q: seq<Msg>)
    requires i < |s.devs|
    ensures Due(Fire(s, i, x, q)) + NodeDue(s.devs[i], i)
            == Due(s) + SelfDue(x.p, x.pc) + QueueDue(q, i) + WriteDue(x.out, i, |s.devs|)
  {
    hide NodeDue, SelfDue, QueueDue, WriteDue;
    DevDueUpdate(s.devs, 0, i, Node(x.p, x.pc, q));
    DeliverDue(s.(devs := s.devs[i := Node(x.p, x.pc, q)]), i, x.out);
    NodeDueIs(s.devs[i], i);
    NodeDueIs(Node(x.p, x.pc, q), i);
  }

  lemma NodeDueIs(d: Node, i: int)
    ensures NodeDue(d, i) == SelfDue(d.p, d.pc) + QueueDue(d.q, i)
  {
  }

  function Fee(e: Event): nat {
    match e
    case MainRequest(_) => REQUEST_COST
    case MainRelease(_) => RELEASE_COST
    case _ => 0
  }

  /** The place of device `i` of `n` in the chain. */
  predicate Placed(p: Pr, i: nat, n: nat) {
    p.left == Some(i - 1) && p.self == i && p.right == if i + 1 < n then Some(i + 1) else None
  }

  lemma FlagsDue(p: Pr, i: nat, n: nat)
    requires Placed(p, i, n)
    ensures var x := Request(p); p.reqMaster ==>
              (if x.out.Some? then 1 else 0) + SelfDue(x.p, x.pc) + WriteDue(x.out, i, n) <= SelfDue(p, Idle)
    ensures var x := Release(p); p.relMaster && p.sackAsserted ==>
              (if x.out.Some? then 1 else 0) + SelfDue(x.p, x.pc) + WriteDue(x.out, i, n) <= SelfDue(p, Idle)
  {
  }

  lemma StartDue(s: Sys, e: Event)
    requires Sound(s) && Enabled(s, e) && (e.StartRequest? || e.StartRelease?)
    ensures (if Originates(s, e) then 1 else 0) + Due(Step(s, e)) <= Due(s)
  {
    hide QueueDue, SelfDue, WriteDue, Due, Fire, Request, Release;
    var d := s.devs[e.i];
    assert Consistent(d);
    var x := if e.StartRequest? then Request(d.p) else Release(d.p);
    FlagsDue(d.p, e.i, |s.devs|);
    FireDue(s, e.i, x, d.q);
  }

  lemma ContinueDue(p: Pr, pc: Pc, i: nat, n: nat)
    requires Placed(p, i, n) && pc != Idle && (pc == RelSackClear ==> p.bbsyAsserted)
    ensures var x := Continue(p, pc);
            (if x.out.Some? then 1 else 0) + SelfDue(x.p, x.pc) + WriteDue(x.out, i, n) <= SelfDue(p, pc)
  {
  }

  lemma GoOnDue(s: Sys, i: nat)
    requires Sound(s) && Enabled(s, GoOn(i))
    ensures (if Originates(s, GoOn(i)) then 1 else 0) + Due(Step(s, GoOn(i))) <= Due(s)
  {
    hide QueueDue, SelfDue, WriteDue, Due, Fire, Continue;
    var d := s.devs[i];
    assert Consistent(d);
    ContinueDue(d.p, d.pc, i, |s.devs|);
    FireDue(s, i, Continue(d.p, d.pc), d.q);
  }

  lemma ReceiveDue(p: Pr, m: Msg, i: nat, n: nat)
    requires Placed(p, i, n) && Deliverable(m, i, n) && !p.nprIssued
    ensures var x := Receive(p, m);
            (if !Passes(p, m) && x.out.Some? then 1 else 0) + SelfDue(x.p, x.pc) + WriteDue(x.out, i, n)
            <= SelfDue(p, Idle) + MsgDue(m, i)
  {
  }

  lemma ReadDue(s: Sys, i: nat)
    requires Sound(s) && Enabled(s, Read(i))
    ensures (if Originates(s, Read(i)) then 1 else 0) + Due(Step(s, Read(i))) <= Due(s)
  {
    hide SelfDue, WriteDue, Due, Fire, Receive, MsgDue, Passes, Deliverable;
    var d := s.devs[i];
    ReceiveDue(d.p, d.q[0], i, |s.devs|);
    FireDue(s, i, Receive(d.p, d.q[0]), d.q[1..]);
  }

  lemma ArbDue(s: Sys)
    requires Sound(s) && Enabled(s, ArbRead)
    ensures (if Originates(s, ArbRead) then 1 else 0) + Due(Step(s, ArbRead)) <= Due(s)
  {
    var r := BusArbiter.Receive(s.arb, s.arbQ[0]);
    assert Deliverable(s.arbQ[0], ARBITER, |s.devs|);
    if r.out.Some? && |s.devs| > 0 {
      var d := s.devs[0];
      QueueDueAppend(d.q, r.out.value, 0);
      DevDueUpdate(s.devs, 0, 0, d.(q := d.q + [r.out.value]));
    }
  }

  /** A step that puts a message on the bus uses up one of those due; only the main threads
      add to them. */
  lemma StepDue(s: Sys, e: Event)
    requires Sound(s) && Enabled(s, e)
    ensures (if Originates(s, e) then 1 else 0) + Due(Step(s, e)) <= Due(s) + Fee(e)
  {
    match e {
      case StartRequest(_) => StartDue(s, e);
      case StartRelease(_) => StartDue(s, e);
      case GoOn(i) => GoOnDue(s, i);
      case Read(i) => ReadDue(s, i);
      case ArbRead => ArbDue(s);
      case MainRequest(i) => DevDueUpdate(s.devs, 0, i, s.devs[i].(p := s.devs[i].p.(reqMaster := true)));
      case MainRelease(i) => DevDueUpdate(s.devs, 0, i, s.devs[i].(p := s.devs[i].p.(relMaster := true)));
    }
  }

  function Fees(es: seq<Event>): nat {
    if es == [] then 0 else Fee(es[0]) + Fees(es[1..])
  }

  function CountRequests(es: seq<Event>): nat {
    if es == [] then 0 else (if es[0].MainRequest? then 1 else 0) + CountRequests(es[1..])
  }

  function CountReleases(es: seq<Event>): nat {
    if es == [] then 0 else (if es[0].MainRelease? then 1 else 0) + CountReleases(es[1..])
  }

  lemma {:induction false} FeesAre(es: seq<Event>)
    ensures Fees(es) == REQUEST_COST * CountRequests(es) + RELEASE_COST * CountReleases(es)
  {
    if es != [] {
      FeesAre(es[1..]);
    }
  }

  lemma {:induction false} RunDue(s: Sys, es: seq<Event>, t: Sys)
    requires Inv(s) && IsRun(s, es, t)
    ensures CountOriginated(s, es, t) + Due(t) <= Due(s) + Fees(es)
    decreases |es|
  {
    hide Inv, Originates, Due, Fee, Step, Enabled;
    if es != [] {
      InvSound(s);
      StepDue(s, es[0]);
      StepKeeps(s, es[0]);
      RunDue(Step(s, es[0]), es[1..], t);
    }
  }

  /** From any reachable state on, the messages that a run puts on the bus are at most those due
      before it, seven for each request of a main thread and four for each release; and what
      it reads is at most what is in flight and the way of these along the chain. */
  lemma BusQuiesces(n: nat, ds: seq<Event>, s: Sys, es: seq<Event>, t: Sys)
    requires n > 0 && IsRun(Init(n), ds, s) && IsRun(s, es, t)
    ensures |s.devs| == |t.devs| == n
    ensures CountOriginated(s, es, t) <= Due(s) + 7 * CountRequests(es) + 4 * CountReleases(es)
    ensures CountReads(es) + SysHops(t)
            <= SysHops(s) + n * (Due(s) + 7 * CountRequests(es) + 4 * CountReleases(es))
  {
    hide Step, Inv, Due, SysHops, CountReads, CountOriginated;
    InitKeeps(n);
    RunKeeps(Init(n), ds, s);
    ReadsPerMessage(n, ds, s, es, t);
    RunDue(s, es, t);
    FeesAre(es);
    Product(n, CountOriginated(s, es, t), Due(s) + 7 * CountRequests(es) + 4 * CountReleases(es));
  }

  lemma Product(n: nat, a: nat, b: nat)
    requires a <= b
    ensures n * a <= n * b
  {
  }

  lemma {:induction false} NothingDue(n: nat, devs: seq<Node>, k: nat)
    requires forall d :: d in devs ==> d.q == [] && d.pc == Idle && !d.p.reqMaster && !d.p.relMaster
    requires k + |devs| == n
    ensures DevDue(devs, k) == 0 && DevHops(devs, k, n) == 0
  {
    if devs != [] {
      assert devs[0] in devs;
      NothingDue(n, devs[1..], k + 1);
    }
  }

  lemma NothingAtFirst(n: nat)
    requires n > 0
    ensures |Init(n).devs| == n && Due(Init(n)) == 0 && SysHops(Init(n)) == 0
  {
    NothingDue(n, Init(n).devs, 0);
  }

  /** From the start: all that is ever read is bounded by what the main threads did. */
  lemma RequestsBoundTraffic(n: nat, es: seq<Event>, t: Sys)
    requires n > 0 && IsRun(Init(n), es, t)
    ensures |t.devs| == n
    ensures CountReads(es) + SysHops(t) <= n * (7 * CountRequests(es) + 4 * CountReleases(es))
  {
    hide Step, Due, SysHops, CountReads, CountOriginated, Init, Fee, CountRequests, CountReleases;
    NothingAtFirst(n);
    assert IsRun(Init(n), [], Init(n));
    BusQuiesces(n, [], Init(n), es, t);
  }
}
