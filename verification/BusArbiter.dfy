/** The bus arbiter: what it does with one received message. */
module BusArbiter {
  import opened Wrappers
  import opened Signals

  datatype Arb = Arb(sack: bool, bbsy: bool, outstandingBg: bool, outstandingNpg: bool)

  /** The new state and the message, if any, for the arbiter's only neighbour. */
  datatype ArbStep = ArbStep(arb: Arb, out: Option<Msg>)

  function Receive(a: Arb, m: Msg): ArbStep {
    match m.sig
    case BR =>
      if a.sack then ArbStep(a, None)
      else ArbStep(a.(outstandingBg := true), Some(Msg(ARBITER, BG, true)))
    case NPR =>
      if a.sack then ArbStep(a, None)
      else ArbStep(a.(outstandingNpg := true), Some(Msg(ARBITER, NPG, true)))
    case SACK =>
      if !a.sack && m.asserted then
        if a.outstandingBg then
          ArbStep(a.(sack := true, outstandingBg := false), Some(Msg(ARBITER, BG, false)))
        else if a.outstandingNpg then
          ArbStep(a.(sack := true, outstandingNpg := false), Some(Msg(ARBITER, NPG, false)))
        else ArbStep(a.(sack := true), None)
      else ArbStep(a.(sack := a.sack && m.asserted), None)
    case BBSY => ArbStep(a.(bbsy := m.asserted), None)
    case _ => ArbStep(a, None)
  }

  function Written(out: Option<Msg>): seq<Msg> {
    if out.Some? then [out.value] else []
  }

  class Arbiter {
    var sack: bool
    var bbsy: bool
    var outstandingBg: bool
    var outstandingNpg: bool
    var sent: seq<Msg>

    constructor ()
      ensures State() == Arb(false, false, false, false) && sent == []
    {
      sack, bbsy, outstandingBg, outstandingNpg, sent := false, false, false, false, [];
    }

    function State(): Arb
      reads this
    {
      Arb(sack, bbsy, outstandingBg, outstandingNpg)
    }

    method AssertBusGrant()
      modifies this
      ensures forall m: Msg :: m.sig == BR ==>
                State() == Receive(old(State()), m).arb && sent == old(sent) + Written(Receive(old(State()), m).out)
    {
      if sack {
        return;
      }
      outstandingBg := true;
      sent := sent + [Msg(ARBITER, BG, true)];
    }

    method NegateBusGrant()
      modifies this`outstandingBg, this`sent
      ensures State() == old(State()).(outstandingBg := false)
      ensures sent == old(sent) + [Msg(ARBITER, BG, false)]
    {
      outstandingBg := false;
      sent := sent + [Msg(ARBITER, BG, false)];
    }

    method AssertNpGrant()
      modifies this
      ensures forall m: Msg :: m.sig == NPR ==>
                State() == Receive(old(State()), m).arb && sent == old(sent) + Written(Receive(old(State()), m).out)
    {
      if sack {
        return;
      }
      outstandingNpg := true;
      sent := sent + [Msg(ARBITER, NPG, true)];
    }

    method NegateNpGrant()
      modifies this`outstandingNpg, this`sent
      ensures State() == old(State()).(outstandingNpg := false)
      ensures sent == old(sent) + [Msg(ARBITER, NPG, false)]
    {
      outstandingNpg := false;
      sent := sent + [Msg(ARBITER, NPG, false)];
    }

    method HandleSack(m: Msg)
      requires m.sig == SACK
      modifies this
      ensures State() == Receive(old(State()), m).arb && sent == old(sent) + Written(Receive(old(State()), m).out)
    {
      if !sack && m.asserted {
        sack := m.asserted;
        if outstandingBg {
          NegateBusGrant();
        } else if outstandingNpg {
          NegateNpGrant();
        }
      } else if sack && !m.asserted {
        sack := m.asserted;
      }
    }

    method HandleBbsy(m: Msg) returns (changed: bool)
      requires m.sig == BBSY
      modifies this
      ensures State() == Receive(old(State()), m).arb && sent == old(sent)
      ensures changed <==> old(bbsy) != m.asserted
    {
      changed := true;
      if bbsy && !m.asserted {
        bbsy := false;
      } else if !bbsy && m.asserted {
        bbsy := true;
      } else {
        changed := false;
      }
    }

    /** The dispatch of the listening loop. */
    method Dispatch(m: Msg)
      modifies this
      ensures State() == Receive(old(State()), m).arb && sent == old(sent) + Written(Receive(old(State()), m).out)
    {
      match m.sig {
        case BR => AssertBusGrant();
        case NPR => AssertNpGrant();
        case SACK => HandleSack(m);
        case BBSY => var changed := HandleBbsy(m);
        case BG =>
        case NPG =>
      }
    }
  }
}
