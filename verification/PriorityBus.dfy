/** The priority-bus processor of one device: first as steps on a value, one step for
    every write to a neighbour, then as the object that makes them in place. */
module PriorityBus {
  import opened Wrappers
  import opened Signals

  /** The device's `pr_state` together with the flags it shares with its main thread. */
  datatype Pr = Pr(left: Option<int>, self: int, right: Option<int>,
                   nprIssued: bool, brIssued: bool, sackAsserted: bool, bbsyAsserted: bool,
                   isMaster: bool, reqMaster: bool, relMaster: bool)

  /** Where the device stands inside a poll; `Idle` is between two of its actions. */
  datatype Pc = Idle | BrRight | GrantRight | GrantSet
              | RelSackRight | RelSackClear | RelBbsyLeft | RelBbsyRight | RelBbsyClear

  /** The result of one step: the new state, the next place, and what was written. */
  datatype Micro = Micro(p: Pr, pc: Pc, out: Option<Sent>)

  function Write(p: Pr, to: Direction, sig: Signal, asserted: bool): Option<Sent> {
    if (to == Left && p.left.Some?) || (to == Right && p.right.Some?) then
      Some(Sent(to, Msg(p.self, sig, asserted)))
    else None
  }

  function FdDirection(p: Pr, from: int, reply: bool): Direction {
    if p.left.None? && p.right.None? then Nowhere
    else if p.left.None? then (if reply then Right else Nowhere)
    else if p.right.None? then (if reply then Left else Nowhere)
    else if from == p.left.value then (if reply then Left else Right)
    else (if reply then Right else Left)
  }

  function Forward(p: Pr, m: Msg): Option<Sent> {
    Write(p, FdDirection(p, m.from, false), m.sig, m.asserted)
  }

  /** One received message, up to and including the first write it causes. */
  function Receive(p: Pr, m: Msg): Micro {
    match m.sig
    case BBSY => Micro(p.(bbsyAsserted := m.asserted), Idle, Forward(p, m))
    case BG =>
      if p.brIssued && m.asserted then
        var dir := FdDirection(p, m.from, true);
        if dir == Nowhere then Micro(p, Idle, None)
        else Micro(p.(brIssued := false, sackAsserted := true), Idle, Write(p, dir, SACK, true))
      else if p.sackAsserted && !m.asserted then
        if p.bbsyAsserted then Micro(p, Idle, None)
        else Micro(p, GrantRight, Write(p, Left, BBSY, true))
      else Micro(p, Idle, Forward(p, m))
    case NPG =>
      if p.nprIssued then
        var dir := FdDirection(p, m.from, true);
        if dir == Nowhere then Micro(p, Idle, None)
        else Micro(p.(nprIssued := false, sackAsserted := true), Idle, Write(p, dir, SACK, true))
      else Micro(p, Idle, Forward(p, m))
    case _ => Micro(p, Idle, Forward(p, m))
  }

  function Request(p: Pr): Micro {
    if p.bbsyAsserted then Micro(p, Idle, None) else Micro(p, BrRight, Write(p, Left, BR, true))
  }

  function Release(p: Pr): Micro {
    if p.sackAsserted then Micro(p, RelSackRight, Write(p, Left, SACK, false))
    else if p.bbsyAsserted then Micro(p, RelBbsyRight, Write(p, Left, BBSY, false))
    else Micro(p, Idle, None)
  }

  function Continue(p: Pr, pc: Pc): Micro
    requires pc != Idle
  {
    match pc
    case BrRight => Micro(p.(brIssued := true, reqMaster := false), Idle, Write(p, Right, BR, true))
    case GrantRight => Micro(p, GrantSet, Write(p, Right, BBSY, true))
    case GrantSet => Micro(p.(bbsyAsserted := true, isMaster := true, reqMaster := false), Idle, None)
    case RelSackRight => Micro(p, RelSackClear, Write(p, Right, SACK, false))
    case RelSackClear =>
      Micro(p.(sackAsserted := false, isMaster := false, reqMaster := false),
            if p.bbsyAsserted then RelBbsyLeft else Idle, None)
    case RelBbsyLeft => Micro(p, RelBbsyRight, Write(p, Left, BBSY, false))
    case RelBbsyRight => Micro(p, RelBbsyClear, Write(p, Right, BBSY, false))
    case RelBbsyClear =>
      Micro(p.(bbsyAsserted := false, isMaster := false, reqMaster := false, relMaster := false), Idle, None)
  }

  // A whole action: its steps without anything in between

  datatype Effect = Effect(p: Pr, out: seq<Sent>)

  function Rank(pc: Pc): nat {
    match pc
    case Idle => 0
    case BrRight => 1
    case GrantRight => 2
    case GrantSet => 1
    case RelSackRight => 5
    case RelSackClear => 4
    case RelBbsyLeft => 3
    case RelBbsyRight => 2
    case RelBbsyClear => 1
  }

  function Written(out: Option<Sent>): seq<Sent> {
    if out.Some? then [out.value] else []
  }

  function Finish(x: Micro): Effect
    decreases Rank(x.pc)
  {
    if x.pc == Idle then Effect(x.p, Written(x.out))
    else var rest := Finish(Continue(x.p, x.pc)); Effect(rest.p, Written(x.out) + rest.out)
  }

  /** The writes of a grant taken without interruption. */
  lemma FinishGrant(p: Pr, out: Option<Sent>)
    ensures Finish(Micro(p, GrantRight, out)) ==
              Effect(p.(bbsyAsserted := true, isMaster := true, reqMaster := false),
                     Written(out) + Written(Write(p, Right, BBSY, true)))
  {
    var x := Continue(p, GrantRight);
    var y := Continue(x.p, GrantSet);
    assert Finish(y) == Effect(y.p, []);
    assert Finish(x) == Effect(y.p, Written(x.out) + []);
  }

  /** The writes of a BBSY-negation, from the second one on. */
  lemma FinishFree(p: Pr, out: Option<Sent>)
    ensures Finish(Micro(p, RelBbsyRight, out)) ==
              Effect(p.(bbsyAsserted := false, isMaster := false, reqMaster := false, relMaster := false),
                     Written(out) + Written(Write(p, Right, BBSY, false)))
  {
    var x := Continue(p, RelBbsyRight);
    var y := Continue(x.p, RelBbsyClear);
    assert Finish(y) == Effect(y.p, []);
    assert Finish(x) == Effect(y.p, Written(x.out) + []);
  }

  /** A release without interruption: SACK is negated on both sides before BBSY is. */
  lemma FinishRelease(p: Pr)
    requires p.sackAsserted
    ensures var q := p.(sackAsserted := false, isMaster := false, reqMaster := false);
            var sack := Written(Write(p, Left, SACK, false)) + Written(Write(p, Right, SACK, false));
            Finish(Release(p)) ==
              if !p.bbsyAsserted then Effect(q, sack)
              else Effect(q.(bbsyAsserted := false, relMaster := false),
                          sack + Written(Write(p, Left, BBSY, false)) + Written(Write(p, Right, BBSY, false)))
  {
    var x := Release(p);
    var y := Continue(x.p, x.pc);
    var z := Continue(y.p, y.pc);
    if p.bbsyAsserted {
      var w := Continue(z.p, z.pc);
      FinishFree(w.p, w.out);
      assert Finish(z) == Effect(Finish(w).p, [] + Finish(w).out);
    } else {
      assert Finish(z) == Effect(z.p, []);
    }
    assert Finish(y) == Effect(Finish(z).p, Written(y.out) + Finish(z).out);
    assert Finish(x) == Effect(Finish(y).p, Written(x.out) + Finish(y).out);
  }

  /** What a poll does with the master flags before it looks at its queue. */
  function PollFlags(p: Pr): Micro {
    if p.reqMaster && !p.isMaster then Request(p)
    else if p.relMaster && p.isMaster then Release(p)
    else Micro(p, Idle, None)
  }

  /** One pass of the polling loop over the flags and at most one queued message. */
  function Poll(p: Pr, inbox: seq<Msg>): (Effect, seq<Msg>) {
    var flags := Finish(PollFlags(p));
    if inbox == [] then (flags, [])
    else
      var event := Finish(Receive(flags.p, inbox[0]));
      (Effect(event.p, flags.out + event.out), inbox[1..])
  }

  /** The signals that end the main thread's waits: for the bus, and for having given it back. */
  datatype Wake = Mastered | Released

  /** Does reading the message signal the main thread?  It does not depend on BBSY. */
  predicate Wakes(p: Pr, m: Msg) { m.sig == BG && !(p.brIssued && m.asserted) && p.sackAsserted && !m.asserted }

  function WakesOf(p: Pr, m: Msg): seq<Wake> { if Wakes(p, m) then [Mastered] else [] }

  predicate ReleaseDue(p: Pr) { !(p.reqMaster && !p.isMaster) && p.relMaster && p.isMaster }

  /** The signals of one pass. */
  function PollWakes(p: Pr, inbox: seq<Msg>): seq<Wake> {
    (if ReleaseDue(p) then [Released] else [])
    + (if inbox == [] then [] else WakesOf(Finish(PollFlags(p)).p, inbox[0]))
  }

  /** The object: `sent` is everything written so far, `inbox` what waits to be read, `woken`
      the signals given. */
  class PriorityDevice {
    const left: Option<int>
    const self: int
    const right: Option<int>
    var nprIssued: bool
    var brIssued: bool
    var sackAsserted: bool
    var bbsyAsserted: bool
    var isMaster: bool
    var reqMaster: bool
    var relMaster: bool
    var inbox: seq<Msg>
    var sent: seq<Sent>
    var woken: seq<Wake>

    constructor (l: Option<int>, s: int, r: Option<int>)
      ensures State() == Pr(l, s, r, false, false, false, false, false, false, false)
      ensures inbox == [] && sent == [] && woken == []
    {
      left, self, right := l, s, r;
      nprIssued, brIssued, sackAsserted, bbsyAsserted := false, false, false, false;
      isMaster, reqMaster, relMaster := false, false, false;
      inbox, sent, woken := [], [], [];
    }

    function State(): Pr
      reads this
    {
      Pr(left, self, right, nprIssued, brIssued, sackAsserted, bbsyAsserted, isMaster, reqMaster, relMaster)
    }

    method WriteTo(dir: Direction, sig: Signal, asserted: bool)
      modifies this`sent
      ensures sent == old(sent) + Written(Write(State(), dir, sig, asserted))
    {
      if dir == Left && left.Some? {
        sent := sent + [Sent(Left, Msg(self, sig, asserted))];
      } else if dir == Right && right.Some? {
        sent := sent + [Sent(Right, Msg(self, sig, asserted))];
      }
    }

    method AssertBr()
      modifies this`sent, this`brIssued
      ensures old(bbsyAsserted && !brIssued) ==> State() == old(State()) && sent == old(sent)
      ensures !old(bbsyAsserted && !brIssued) ==>
                State() == old(State()).(brIssued := true)
                && sent == old(sent) + Written(Write(old(State()), Left, BR, true))
                           + Written(Write(old(State()), Right, BR, true))
    {
      if bbsyAsserted && !brIssued {
        return;
      }
      WriteTo(Left, BR, true);
      WriteTo(Right, BR, true);
      brIssued := true;
    }

    method AssertBbsy()
      modifies this`sent, this`bbsyAsserted, this`isMaster, this`reqMaster
      ensures old(bbsyAsserted) ==> State() == old(State()) && sent == old(sent)
      ensures !old(bbsyAsserted) ==>
                State() == old(State()).(bbsyAsserted := true, isMaster := true, reqMaster := false)
                && sent == old(sent) + Written(Write(old(State()), Left, BBSY, true))
                           + Written(Write(old(State()), Right, BBSY, true))
    {
      if bbsyAsserted {
        return;
      }
      WriteTo(Left, BBSY, true);
      WriteTo(Right, BBSY, true);
      bbsyAsserted := true;
      isMaster := true;
      reqMaster := false;
    }

    method NegateSack()
      modifies this`sent, this`sackAsserted, this`isMaster, this`reqMaster
      ensures !old(sackAsserted) ==> State() == old(State()) && sent == old(sent)
      ensures old(sackAsserted) ==>
                State() == old(State()).(sackAsserted := false, isMaster := false, reqMaster := false)
                && sent == old(sent) + Written(Write(old(State()), Left, SACK, false))
                           + Written(Write(old(State()), Right, SACK, false))
    {
      if !sackAsserted {
        return;
      }
      WriteTo(Left, SACK, false);
      WriteTo(Right, SACK, false);
      sackAsserted := false;
      isMaster := false;
      reqMaster := false;
    }

    method NegateBbsy()
      modifies this`sent, this`bbsyAsserted, this`isMaster, this`reqMaster, this`relMaster
      ensures !old(bbsyAsserted) ==> State() == old(State()) && sent == old(sent)
      ensures old(bbsyAsserted) ==>
                State() == old(State()).(bbsyAsserted := false, isMaster := false,
                                         reqMaster := false, relMaster := false)
                && sent == old(sent) + Written(Write(old(State()), Left, BBSY, false))
                           + Written(Write(old(State()), Right, BBSY, false))
    {
      if !bbsyAsserted {
        return;
      }
      WriteTo(Left, BBSY, false);
      WriteTo(Right, BBSY, false);
      bbsyAsserted := false;
      isMaster := false;
      reqMaster := false;
      relMaster := false;
    }

    method Pass(m: Msg)
      modifies this`sent
      ensures sent == old(sent) + Written(Forward(State(), m))
    {
      var dir := FdDirection(State(), m.from, false);
      if dir == Nowhere {
        return;
      }
      WriteTo(dir, m.sig, m.asserted);
    }

    method HandleBg(m: Msg)
      requires m.sig == BG
      modifies this`sent, this`woken, this`brIssued, this`sackAsserted, this`bbsyAsserted, this`isMaster, this`reqMaster
      ensures State() == Finish(Receive(old(State()), m)).p
      ensures sent == old(sent) + Finish(Receive(old(State()), m)).out
      ensures woken == old(woken) + WakesOf(old(State()), m)
    {
      if brIssued && m.asserted {
        var dir := FdDirection(State(), m.from, true);
        if dir == Nowhere {
          return;
        }
        WriteTo(dir, SACK, true);
        brIssued := false;
        sackAsserted := true;
      } else if sackAsserted && !m.asserted {
        FinishGrant(State(), Write(State(), Left, BBSY, true));
        AssertBbsy();
        woken := woken + [Mastered];
      } else {
        Pass(m);
      }
    }

    method HandleNpg(m: Msg)
      requires m.sig == NPG
      modifies this`sent, this`nprIssued, this`sackAsserted
      ensures State() == Finish(Receive(old(State()), m)).p
      ensures sent == old(sent) + Finish(Receive(old(State()), m)).out
    {
      if nprIssued {
        var dir := FdDirection(State(), m.from, true);
        if dir == Nowhere {
          return;
        }
        WriteTo(dir, SACK, true);
        nprIssued := false;
        sackAsserted := true;
      } else {
        Pass(m);
      }
    }

    method HandleBbsy(m: Msg)
      requires m.sig == BBSY
      modifies this`sent, this`bbsyAsserted
      ensures State() == Finish(Receive(old(State()), m)).p
      ensures sent == old(sent) + Finish(Receive(old(State()), m)).out
    {
      bbsyAsserted := m.asserted;
      Pass(m);
    }

    method RequestMaster()
      modifies this`sent, this`brIssued, this`reqMaster
      ensures State() == Finish(Request(old(State()))).p
      ensures sent == old(sent) + Finish(Request(old(State()))).out
    {
      if bbsyAsserted {
        return;
      }
      AssertBr();
      reqMaster := false;
    }

    method ReleaseMaster()
      modifies this`sent, this`woken, this`sackAsserted, this`bbsyAsserted
      modifies this`isMaster, this`reqMaster, this`relMaster
      ensures State() == Finish(Release(old(State()))).p
      ensures sent == old(sent) + Finish(Release(old(State()))).out
      ensures woken == old(woken) + [Released]
    {
      if sackAsserted {
        FinishRelease(State());
      } else {
        FinishFree(State(), Write(State(), Left, BBSY, false));
      }
      NegateSack();
      NegateBbsy();
      woken := woken + [Released];
    }

    /** What the pass does about its flags. */
    method ServeFlags()
      modifies this
      ensures State() == Finish(PollFlags(old(State()))).p
      ensures sent == old(sent) + Finish(PollFlags(old(State()))).out
      ensures woken == old(woken) + if ReleaseDue(old(State())) then [Released] else []
      ensures inbox == old(inbox)
    {
      hide Request, Release;
      if reqMaster && !isMaster {
        RequestMaster();
      } else if relMaster && isMaster {
        ReleaseMaster();
      }
    }

    method ProcessPrEvents()
      modifies this
      ensures old(inbox) == [] ==> State() == old(State()) && sent == old(sent) && woken == old(woken) && inbox == []
      ensures old(inbox) != [] ==>
                State() == Finish(Receive(old(State()), old(inbox)[0])).p
                && sent == old(sent) + Finish(Receive(old(State()), old(inbox)[0])).out
                && woken == old(woken) + WakesOf(old(State()), old(inbox)[0])
                && inbox == old(inbox)[1..]
    {
      if inbox == [] {
        return;
      }
      var event := inbox[0];
      inbox := inbox[1..];
      match event.sig {
        case BG => HandleBg(event);
        case NPG => HandleNpg(event);
        case BBSY => HandleBbsy(event);
        case BR => Pass(event);
        case NPR => Pass(event);
        case SACK => Pass(event);
      }
    }

    /** One pass of the loop in the bus thread. */
    method PollOnce()
      modifies this
      ensures State() == Poll(old(State()), old(inbox)).0.p
      ensures sent == old(sent) + Poll(old(State()), old(inbox)).0.out
      ensures inbox == Poll(old(State()), old(inbox)).1
      ensures woken == old(woken) + PollWakes(old(State()), old(inbox))
    {
      hide Finish, PollFlags, Receive, WakesOf;
      ServeFlags();
      ProcessPrEvents();
    }
  }
}
