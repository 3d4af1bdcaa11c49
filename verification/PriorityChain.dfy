/** The arbiter, the chain of devices and the receive queues between them, as a step
    relation: any device may make its next step at any time. */
module PriorityChain {
  import opened Wrappers
  import opened Signals
  import opened PriorityBus
  import BusArbiter

  datatype Node = Node(p: Pr, pc: Pc, q: seq<Msg>)

  datatype Sys = Sys(arb: BusArbiter.Arb, arbQ: seq<Msg>, devs: seq<Node>)

  /** The steps: the main thread of device `i` asks for the bus or gives it back, the bus
      thread of device `i` starts to request, starts to release, reads a message, or goes on
      with the action it is in; the arbiter reads a message. */
  datatype Event = MainRequest(i: nat) | MainRelease(i: nat) | StartRequest(i: nat) | StartRelease(i: nat)
                 | Read(i: nat) | GoOn(i: nat) | ArbRead

  function InitialDevice(n: nat, i: nat): Pr {
    Pr(Some(i - 1), i, if i + 1 < n then Some(i + 1) else None,
       false, false, false, false, false, false, false)
  }

  function Init(n: nat): Sys {
    Sys(BusArbiter.Arb(false, false, false, false), [],
        seq(n, i requires 0 <= i < n => Node(InitialDevice(n, i), Idle, [])))
  }

  /** Put a written message into the queue of the neighbour it is for. */
  function Deliver(s: Sys, i: nat, out: Option<Sent>): Sys
    requires i < |s.devs|
  {
    if out.None? then s
    else if out.value.to == Left then
      if i == 0 then s.(arbQ := s.arbQ + [out.value.msg])
      else s.(devs := s.devs[i - 1 := s.devs[i - 1].(q := s.devs[i - 1].q + [out.value.msg])])
    else if out.value.to == Right && i + 1 < |s.devs| then
      s.(devs := s.devs[i + 1 := s.devs[i + 1].(q := s.devs[i + 1].q + [out.value.msg])])
    else s
  }

  /** Device `i` takes step `x` and is left with queue `q`. */
  function Fire(s: Sys, i: nat, x: Micro, q: seq<Msg>): Sys
    requires i < |s.devs|
  {
    Deliver(s.(devs := s.devs[i := Node(x.p, x.pc, q)]), i, x.out)
  }

  predicate Enabled(s: Sys, e: Event) {
    match e
    case MainRequest(i) => i < |s.devs| && !s.devs[i].p.isMaster
    case MainRelease(i) => i < |s.devs| && s.devs[i].p.isMaster
    case StartRequest(i) => i < |s.devs| && s.devs[i].pc == Idle && s.devs[i].p.reqMaster && !s.devs[i].p.isMaster
    case StartRelease(i) => i < |s.devs| && s.devs[i].pc == Idle && s.devs[i].p.relMaster && s.devs[i].p.isMaster
    case Read(i) => i < |s.devs| && s.devs[i].pc == Idle && s.devs[i].q != []
    case GoOn(i) => i < |s.devs| && s.devs[i].pc != Idle
    case ArbRead => s.arbQ != []
  }

  function Step(s: Sys, e: Event): Sys
    requires Enabled(s, e)
  {
    match e
    case MainRequest(i) => s.(devs := s.devs[i := s.devs[i].(p := s.devs[i].p.(reqMaster := true))])
    case MainRelease(i) => s.(devs := s.devs[i := s.devs[i].(p := s.devs[i].p.(relMaster := true))])
    case StartRequest(i) => Fire(s, i, Request(s.devs[i].p), s.devs[i].q)
    case StartRelease(i) => Fire(s, i, Release(s.devs[i].p), s.devs[i].q)
    case Read(i) => Fire(s, i, Receive(s.devs[i].p, s.devs[i].q[0]), s.devs[i].q[1..])
    case GoOn(i) => Fire(s, i, Continue(s.devs[i].p, s.devs[i].pc), s.devs[i].q)
    case ArbRead =>
      var r := BusArbiter.Receive(s.arb, s.arbQ[0]);
      var t := s.(arb := r.arb, arbQ := s.arbQ[1..]);
      if r.out.Some? && |s.devs| > 0 then
        t.(devs := t.devs[0 := t.devs[0].(q := t.devs[0].q + [r.out.value])])
      else t
  }

  /** A run: a state, and what the listed events make of it, in order. */
  ghost predicate IsRun(s: Sys, es: seq<Event>, t: Sys)
    decreases |es|
  {
    if es == [] then t == s
    else Enabled(s, es[0]) && IsRun(Step(s, es[0]), es[1..], t)
  }
}
