/** What becomes of a main thread's request: it is pending until it is on the bus on both sides,
    or until the device takes the bus or gives it back. */
module RequestLaws {
  import opened Wrappers
  import opened Signals
  import opened PriorityBus
  import opened PriorityChain
  import opened ChainSafety
  import opened ChainPolls
  import opened ChainTraffic
  import opened SackSharing

  /** The queue of the neighbour to the left, and to the right, if there is one. */
  function LeftQueue(s: Sys, i: nat): seq<Msg>
    requires i < |s.devs|
  {
    if i == 0 then s.arbQ else s.devs[i - 1].q
  }

  function RightQueue(s: Sys, i: nat): seq<Msg>
    requires i < |s.devs|
  {
    if i + 1 < |s.devs| then s.devs[i + 1].q else []
  }

  predicate Pending(s: Sys, i: nat) { i < |s.devs| && s.devs[i].p.reqMaster }

  /** The four ways in which a request is dealt with: the second of its two BRs is written, the
      device becomes master, or it gives up SACK or BBSY. */
  predicate Settles(s: Sys, e: Event, i: nat) {
    && e == GoOn(i) && i < |s.devs|
    && (var pc := s.devs[i].pc; pc == BrRight || pc == GrantSet || pc == RelSackClear || pc == RelBbsyClear)
  }

  /** Nothing else ends a request. */
  lemma PendingStays(s: Sys, e: Event, i: nat)
    requires Enabled(s, e) && Pending(s, i)
    ensures Pending(Step(s, e), i) || Settles(s, e, i)
  {
    hide Step, Request, PriorityBus.Release, Receive, Continue;
    OthersStay(s, e, i);
    if e != ArbRead && e.i == i {
      NodeOf(s, e);
      var d := s.devs[i];
      FlagStays(d.p, d.pc);
      if d.q != [] {
        ReadingKeepsFlag(d.p, d.q[0]);
      }
    }
  }

  lemma FlagStays(p: Pr, pc: Pc)
    ensures Request(p).p.reqMaster == p.reqMaster && PriorityBus.Release(p).p.reqMaster == p.reqMaster
    ensures pc !in {Idle, BrRight, GrantSet, RelSackClear, RelBbsyClear} ==> Continue(p, pc).p.reqMaster == p.reqMaster
  {
    hide Write;
  }

  lemma ReadingKeepsFlag(p: Pr, m: Msg)
    ensures Receive(p, m).p.reqMaster == p.reqMaster
  {
    hide FdDirection, Write, Forward;
  }

  /** Being asked makes a request pending. */
  lemma MainAsks(s: Sys, i: nat)
    requires Enabled(s, MainRequest(i))
    ensures Pending(Step(s, MainRequest(i)), i)
  {
  }

  /** Serving a request: under BBSY nothing at all happens and it stays pending, otherwise BR
      goes to the left. */
  lemma RequestServed(s: Sys, i: nat)
    requires Wired(s) && Enabled(s, StartRequest(i))
    ensures s.devs[i].p.bbsyAsserted ==> Step(s, StartRequest(i)) == s
    ensures !s.devs[i].p.bbsyAsserted ==>
              var t := Step(s, StartRequest(i));
              && |t.devs| == |s.devs| && t.devs[i] == s.devs[i].(pc := BrRight)
              && LeftQueue(t, i) == LeftQueue(s, i) + [Msg(i, BR, true)] && RightQueue(t, i) == RightQueue(s, i)
  {
    if s.devs[i].p.bbsyAsserted {
      assert s.devs[i := s.devs[i]] == s.devs;
    }
  }

  /** Only serving a request leads to where its second BR is due, and that one goes right. */
  lemma OnlyRequestsHalfAsk(s: Sys, e: Event, i: nat)
    requires Enabled(s, e) && i < |s.devs| && s.devs[i].pc != BrRight
    requires |Step(s, e).devs| == |s.devs| && Step(s, e).devs[i].pc == BrRight
    ensures e == StartRequest(i) && Pending(s, i) && !s.devs[i].p.bbsyAsserted
  {
    OthersStay(s, e, i);
  }

  lemma SecondHalf(s: Sys, i: nat)
    requires Wired(s) && Enabled(s, GoOn(i)) && s.devs[i].pc == BrRight
    ensures var t := Step(s, GoOn(i));
            && |t.devs| == |s.devs| && !Pending(t, i) && t.devs[i].p.brIssued && t.devs[i].pc == Idle
            && LeftQueue(t, i) == LeftQueue(s, i)
            && (i + 1 < |s.devs| ==> RightQueue(t, i) == RightQueue(s, i) + [Msg(i, BR, true)])
  {
  }

  /** Does the run settle a request of device `i`? */
  ghost predicate SettledIn(s: Sys, es: seq<Event>, t: Sys, i: nat)
    requires IsRun(s, es, t)
    decreases |es|
  {
    es != [] && (Settles(s, es[0], i) || SettledIn(Step(s, es[0]), es[1..], t, i))
  }

  /** In every run a request stays pending until it is settled. */
  lemma {:induction false} PendingUntilSettled(s: Sys, es: seq<Event>, t: Sys, i: nat)
    requires IsRun(s, es, t) && Pending(s, i)
    ensures Pending(t, i) || SettledIn(s, es, t, i)
    decreases |es|
  {
    hide Step, Settles, Pending;
    if es != [] {
      PendingStays(s, es[0], i);
      if !Settles(s, es[0], i) {
        PendingUntilSettled(Step(s, es[0]), es[1..], t, i);
      }
    }
  }

  /** So every time a main thread asks for the bus, its request is pending until it is settled. */
  lemma AskedUntilSettled(s: Sys, i: nat, es: seq<Event>, t: Sys)
    requires Enabled(s, MainRequest(i)) && IsRun(Step(s, MainRequest(i)), es, t)
    ensures Pending(t, i) || SettledIn(Step(s, MainRequest(i)), es, t, i)
  {
    MainAsks(s, i);
    PendingUntilSettled(Step(s, MainRequest(i)), es, t, i);
  }

  /** How often the run writes device `i`'s BR to the left. */
  ghost function CountLeft(s: Sys, es: seq<Event>, t: Sys, i: nat): nat
    requires IsRun(s, es, t) && i < |s.devs|
    decreases |es|
  {
    if es == [] then 0
    else
      OthersStay(s, es[0], i);
      (if es[0] == StartRequest(i) && !s.devs[i].p.bbsyAsserted then 1 else 0)
      + CountLeft(Step(s, es[0]), es[1..], t, i)
  }

  /** In every run each BR to the left has its BR to the right, the last one perhaps still to
      come; so a request settled by asking is on the bus on both sides. */
  lemma {:induction false} HalvesMatch(s: Sys, es: seq<Event>, t: Sys, i: nat)
    requires IsRun(s, es, t) && i < |s.devs|
    ensures |t.devs| == |s.devs|
    ensures CountLeft(s, es, t, i) + (if s.devs[i].pc == BrRight then 1 else 0)
            == CountAsked(s, es, t, i) + if t.devs[i].pc == BrRight then 1 else 0
    decreases |es|
  {
    hide Step, Enabled;
    if es != [] {
      OthersStay(s, es[0], i);
      HalfStep(s, es[0], i);
      HalvesMatch(Step(s, es[0]), es[1..], t, i);
    }
  }

  lemma HalfStep(s: Sys, e: Event, i: nat)
    requires Enabled(s, e) && i < |s.devs|
    ensures var t := Step(s, e);
            && |t.devs| == |s.devs|
            && (if e == StartRequest(i) && !s.devs[i].p.bbsyAsserted then 1 else 0)
               + (if s.devs[i].pc == BrRight then 1 else 0)
               == (if AsksBus(s, e, i) then 1 else 0) + if t.devs[i].pc == BrRight then 1 else 0
  {
    OthersStay(s, e, i);
  }

  /** A whole pass of the loop with a request pending and BBSY not seen: BR on both sides, and
      the request is done with; under BBSY nothing changes. */
  lemma PassRequests(p: Pr)
    requires p.reqMaster && !p.isMaster
    ensures Finish(PollFlags(p)) ==
              if p.bbsyAsserted then Effect(p, [])
              else Effect(p.(brIssued := true, reqMaster := false),
                          (if p.left.Some? then [Sent(Left, Msg(p.self, BR, true))] else [])
                          + (if p.right.Some? then [Sent(Right, Msg(p.self, BR, true))] else []))
  {
    var x := PollFlags(p);
    if !p.bbsyAsserted {
      var y := Continue(x.p, x.pc);
      assert Finish(y) == Effect(y.p, Written(y.out));
    }
  }

  /** A pass of a master that is to give the bus back gives it back. */
  lemma PassReleases(p: Pr)
    requires p.relMaster && p.isMaster && p.sackAsserted && p.bbsyAsserted
    ensures var e := Finish(PollFlags(p));
            && e.p == p.(sackAsserted := false, bbsyAsserted := false, isMaster := false,
                         reqMaster := false, relMaster := false)
            && e.out == (if p.left.Some? then [Sent(Left, Msg(p.self, SACK, false))] else [])
                        + (if p.right.Some? then [Sent(Right, Msg(p.self, SACK, false))] else [])
                        + (if p.left.Some? then [Sent(Left, Msg(p.self, BBSY, false))] else [])
                        + (if p.right.Some? then [Sent(Right, Msg(p.self, BBSY, false))] else [])
  {
    FinishRelease(p);
  }

  /** A release of any device: each of SACK and BBSY that it has asserted is negated on both sides, SACK
      first; with neither, nothing happens. */
  lemma ReleaseGoes(p: Pr)
    ensures var e := Finish(PriorityBus.Release(p));
            var negated := (sig: Signal) =>
              (if p.left.Some? then [Sent(Left, Msg(p.self, sig, false))] else [])
              + (if p.right.Some? then [Sent(Right, Msg(p.self, sig, false))] else []);
            && e.out == (if p.sackAsserted then negated(SACK) else []) + (if p.bbsyAsserted then negated(BBSY) else [])
            && !e.p.sackAsserted && !e.p.bbsyAsserted && e.p.brIssued == p.brIssued && e.p.nprIssued == p.nprIssued
            && e.p.isMaster == (p.isMaster && !p.sackAsserted && !p.bbsyAsserted)
            && e.p.reqMaster == (p.reqMaster && !p.sackAsserted && !p.bbsyAsserted)
            && e.p.relMaster == (p.relMaster && !p.bbsyAsserted)
  {
    var x := PriorityBus.Release(p);
    if p.sackAsserted {
      FinishRelease(p);
    } else if p.bbsyAsserted {
      FinishFree(p, x.out);
    }
  }

  /** Where messages go: an answer to the neighbour the message came from, everything else to the
      other one, if there is one. */
  lemma Directions(p: Pr, m: Msg)
    requires p.left.Some? && p.right.Some? ==> p.left.value != p.right.value
    requires (p.left.Some? && m.from == p.left.value) || (p.right.Some? && m.from == p.right.value)
    ensures var fromLeft := p.left.Some? && m.from == p.left.value;
            && FdDirection(p, m.from, true) == (if fromLeft then Left else Right)
            && Forward(p, m) ==
                 if fromLeft then (if p.right.Some? then Some(Sent(Right, Msg(p.self, m.sig, m.asserted))) else None)
                 else (if p.left.Some? then Some(Sent(Left, Msg(p.self, m.sig, m.asserted))) else None)
  {
  }

  // Who is woken

  /** The signals of a whole pass: for a release, if one is due, and then for a BG-negated that finds
      SACK still asserted, whether or not BBSY is seen. */
  lemma PassWakes(p: Pr, inbox: seq<Msg>)
    requires p.isMaster ==> p.sackAsserted && p.bbsyAsserted
    ensures var released := p.relMaster && p.isMaster;
            PollWakes(p, inbox) ==
              (if released then [Released] else [])
              + if inbox != [] && inbox[0].sig == BG && !inbox[0].asserted && p.sackAsserted && !released
                then [Mastered] else []
  {
    if p.relMaster && p.isMaster {
      PassReleases(p);
    } else if p.reqMaster && !p.isMaster {
      PassRequests(p);
    } else {
      assert Finish(PollFlags(p)) == Effect(p, []);
    }
  }

  // The path that no request takes

  function Swapped(p: Pr): Pr { p.(brIssued := p.nprIssued, nprIssued := p.brIssued) }

  /** An NPG is to a non-processor request what an asserted BG is to a bus request. */
  lemma NpgLikeBg(p: Pr, m: Msg)
    requires m.sig == NPG && p.left.Some? && p.right.Some? && p.left.value != p.right.value
    ensures var x, y := Receive(p, m), Receive(Swapped(p), m.(sig := BG, asserted := true));
            && x.p == Swapped(y.p) && x.pc == y.pc && x.out.Some? && y.out.Some? && x.out.value.to == y.out.value.to
            && x.out.value.msg == if p.nprIssued then y.out.value.msg else Msg(p.self, NPG, m.asserted)
  {
  }
}
