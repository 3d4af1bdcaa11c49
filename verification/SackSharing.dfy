/** When SACK is exclusive.  A device can hold SACK without being master, so two devices can
    hold it at once; that happens in some run exactly if two devices ever ask for the bus. */
module SackSharing {
  import opened Wrappers
  import opened Signals
  import opened PriorityBus
  import opened PriorityChain
  import opened ChainSafety
  import opened ChainPolls

  ghost predicate OneSack(s: Sys) {
    forall i, j :: 0 <= i < j < |s.devs| ==> !(s.devs[i].p.sackAsserted && s.devs[j].p.sackAsserted)
  }

  /** Only main threads of devices in `asking` ask for the bus. */
  ghost predicate OnlyAsk(es: seq<Event>, asking: set<nat>) {
    forall k :: 0 <= k < |es| && es[k].MainRequest? ==> es[k].i in asking
  }

  // A device that never asks never holds SACK

  predicate Unasked(d: Node) {
    !d.p.reqMaster && d.pc != BrRight && !d.p.brIssued && !d.p.sackAsserted
  }

  ghost predicate OthersUnasked(s: Sys, asking: set<nat>) {
    && (forall i :: 0 <= i < |s.devs| ==> !s.devs[i].p.nprIssued)
    && (forall i :: 0 <= i < |s.devs| && i !in asking ==> Unasked(s.devs[i]))
  }

  /** Only the stepping device changes its flags and its place. */
  lemma OthersStay(s: Sys, e: Event, k: nat)
    requires Enabled(s, e) && k < |s.devs|
    ensures |Step(s, e).devs| == |s.devs|
    ensures e == ArbRead || e.i != k ==> Step(s, e).devs[k].p == s.devs[k].p && Step(s, e).devs[k].pc == s.devs[k].pc
  {
  }

  lemma StaysUnasked(s: Sys, e: Event, i: nat)
    requires Enabled(s, e) && i < |s.devs| && Unasked(s.devs[i]) && !s.devs[i].p.nprIssued && e != MainRequest(i)
    ensures |Step(s, e).devs| == |s.devs| && Unasked(Step(s, e).devs[i]) && !Step(s, e).devs[i].p.nprIssued
  {
    OthersStay(s, e, i);
  }

  lemma NeverNpr(s: Sys, e: Event, i: nat)
    requires Enabled(s, e) && i < |s.devs| && !s.devs[i].p.nprIssued
    ensures |Step(s, e).devs| == |s.devs| && !Step(s, e).devs[i].p.nprIssued
  {
    hide Receive, Continue, Request, Release;
    OthersStay(s, e, i);
    var d := s.devs[i];
    NprStays(d.p);
    if d.q != [] {
      NprUnread(d.p, d.q[0]);
    }
    if d.pc != Idle {
      NprGoesOn(d.p, d.pc);
    }
  }

  lemma NprStays(p: Pr)
    ensures Request(p).p == p && Release(p).p == p
  {
  }

  lemma NprUnread(p: Pr, m: Msg)
    ensures !p.nprIssued ==> !Receive(p, m).p.nprIssued
  {
    hide FdDirection, Write, Forward;
  }

  lemma NprGoesOn(p: Pr, pc: Pc)
    requires pc != Idle
    ensures !p.nprIssued ==> !Continue(p, pc).p.nprIssued
  {
    hide Write;
  }

  lemma {:induction false} RunStaysUnasked(s: Sys, es: seq<Event>, t: Sys, asking: set<nat>)
    requires OthersUnasked(s, asking) && IsRun(s, es, t) && OnlyAsk(es, asking)
    ensures OthersUnasked(t, asking)
    decreases |es|
  {
    if es != [] {
      var u := Step(s, es[0]);
      forall i | 0 <= i < |u.devs| ensures !u.devs[i].p.nprIssued && (i !in asking ==> Unasked(u.devs[i])) {
        OthersStay(s, es[0], 0);
        NeverNpr(s, es[0], i);
        if i !in asking {
          StaysUnasked(s, es[0], i);
        }
      }
      RunStaysUnasked(u, es[1..], t, asking);
    }
  }

  // One message alone on the bus

  /** Nothing is on the bus and nobody is in the middle of anything. */
  ghost predicate Silent(s: Sys) {
    Wired(s) && forall i :: 0 <= i < |s.devs| ==> s.devs[i].q == []
  }

  /** The same up to device `j`. */
  ghost predicate SilentTo(s: Sys, j: nat) {
    Wired(s) && forall i :: 0 <= i <= j && i < |s.devs| ==> s.devs[i].q == []
  }

  function Put(s: Sys, k: nat, m: Msg): Sys
    requires k < |s.devs|
  {
    s.(devs := s.devs[k := s.devs[k].(q := [m])])
  }

  predicate LetsPass(d: Node, m: Msg) {
    d.pc == Idle && (m.sig == BR || m.sig == SACK
                     || (m.sig == BG && if m.asserted then !d.p.brIssued else !d.p.sackAsserted))
  }

  lemma HopRight(s: Sys, k: nat, m: Msg)
    requires SilentTo(s, k + 1) && k < |s.devs| && m.from == k - 1 && LetsPass(s.devs[k], m)
    ensures Enabled(Put(s, k, m), Read(k))
    ensures Step(Put(s, k, m), Read(k)) == if k + 1 < |s.devs| then Put(s, k + 1, m.(from := k)) else s
  {
    var d := s.devs[k];
    var t := Step(Put(s, k, m), Read(k));
    assert Receive(d.p, m) == Micro(d.p, Idle, if k + 1 < |s.devs| then Some(Sent(Right, m.(from := k))) else None);
    assert d == Node(d.p, Idle, [m][1..]);
    assert k + 1 < |s.devs| ==> s.devs[k + 1].q + [m.(from := k)] == [m.(from := k)];
    assert t.devs == if k + 1 < |s.devs| then Put(s, k + 1, m.(from := k)).devs else s.devs;
  }

  lemma HopLeft(s: Sys, k: nat, m: Msg)
    requires Silent(s) && k < |s.devs| && m.from == k + 1 < |s.devs| && LetsPass(s.devs[k], m)
    ensures Enabled(Put(s, k, m), Read(k))
    ensures Step(Put(s, k, m), Read(k)) ==
            if k == 0 then s.(arbQ := s.arbQ + [m.(from := 0)]) else Put(s, k - 1, m.(from := k))
  {
    var d := s.devs[k];
    var t := Step(Put(s, k, m), Read(k));
    assert m.sig != BG ==> Receive(d.p, m) == Micro(d.p, Idle, Some(Sent(Left, m.(from := k))));
    assert d == Node(d.p, Idle, [m][1..]);
    assert k > 0 ==> s.devs[k - 1].q + [m.(from := k)] == [m.(from := k)];
    assert t.devs == if k == 0 then s.devs else Put(s, k - 1, m.(from := k)).devs;
  }

  predicate JustReads(es: seq<Event>) { forall k :: 0 <= k < |es| ==> es[k].Read? || es[k].ArbRead? }

  lemma {:induction false} CarryRight(s: Sys, k: nat, j: nat, m: Msg) returns (es: seq<Event>)
    requires SilentTo(s, j) && k <= j < |s.devs| && m.from == k - 1
    requires forall x :: k <= x < j ==> LetsPass(s.devs[x], m)
    ensures IsRun(Put(s, k, m), es, Put(s, j, m.(from := j - 1))) && JustReads(es)
    decreases j - k
  {
    hide Step, Receive;
    if k == j {
      es := [];
    } else {
      HopRight(s, k, m);
      var fs := CarryRight(s, k + 1, j, m.(from := k));
      es := [Read(k)] + fs;
      assert es[1..] == fs;
    }
  }

  /** A message that nobody stops leaves the bus at the far end. */
  lemma CarryAway(s: Sys, k: nat, m: Msg) returns (es: seq<Event>)
    requires Silent(s) && k < |s.devs| && m.from == k - 1
    requires forall x :: k <= x < |s.devs| ==> LetsPass(s.devs[x], m)
    ensures IsRun(Put(s, k, m), es, s) && JustReads(es)
  {
    var last := |s.devs| - 1;
    var fs := CarryRight(s, k, last, m);
    var u := Put(s, last, m.(from := last - 1));
    HopRight(s, last, m.(from := last - 1));
    es := fs + [Read(last)];
    assert IsRun(u, [Read(last)], s);
    RunConcat(Put(s, k, m), fs, u, [Read(last)], s);
  }

  lemma {:induction false} CarryLeft(s: Sys, k: nat, m: Msg) returns (es: seq<Event>)
    requires Silent(s) && k < |s.devs| && m.from == k + 1 < |s.devs| && (m.sig == BR || m.sig == SACK)
    requires forall x :: 0 <= x <= k ==> s.devs[x].pc == Idle
    ensures IsRun(Put(s, k, m), es, s.(arbQ := s.arbQ + [m.(from := 0)])) && JustReads(es)
    decreases k
  {
    HopLeft(s, k, m);
    var fs := [];
    if k > 0 {
      fs := CarryLeft(s, k - 1, m.(from := k));
    }
    es := [Read(k)] + fs;
    assert es[1..] == fs;
  }

  // Asking and being granted, one device at a time

  ghost predicate Still(s: Sys) {
    && Silent(s) && !s.arb.sack
    && forall i :: 0 <= i < |s.devs| ==> s.devs[i].pc == Idle && !s.devs[i].p.isMaster && !s.devs[i].p.bbsyAsserted
  }

  function Flags(s: Sys, i: nat, p: Pr, pc: Pc): Sys
    requires i < |s.devs|
  {
    s.(devs := s.devs[i := Node(p, pc, [])])
  }

  /** Device `i` has asked, and its request waits at the arbiter. */
  function Asked(s: Sys, i: nat): Sys
    requires i < |s.devs|
  {
    Flags(s, i, s.devs[i].p.(brIssued := true, reqMaster := false), Idle).(arbQ := s.arbQ + [Msg(0, BR, true)])
  }

  /** The request at the head of the arbiter's queue has been granted to device `i`. */
  function Granted(s: Sys, i: nat): Sys
    requires i < |s.devs| && s.arbQ != []
  {
    Flags(s, i, s.devs[i].p.(brIssued := false, sackAsserted := true), Idle)
      .(arb := s.arb.(outstandingBg := true), arbQ := s.arbQ[1..] + [Msg(0, SACK, true)])
  }

  /** A message written to the left ends up in the arbiter's queue. */
  lemma SendsLeft(s: Sys, i: nat, m: Msg) returns (es: seq<Event>)
    requires Silent(s) && i < |s.devs| && m.from == i && (m.sig == BR || m.sig == SACK)
    requires forall x :: 0 <= x < i ==> s.devs[x].pc == Idle
    ensures IsRun(Deliver(s, i, Some(Sent(Left, m))), es, s.(arbQ := s.arbQ + [m.(from := 0)])) && JustReads(es)
  {
    if i == 0 {
      es := [];
    } else {
      es := CarryLeft(s, i - 1, m);
      assert s.devs[i - 1].q + [m] == [m];
      assert Deliver(s, i, Some(Sent(Left, m))).devs == Put(s, i - 1, m).devs;
    }
  }

  lemma SendsRight(s: Sys, i: nat, out: Option<Sent>) returns (es: seq<Event>)
    requires Still(s) && i < |s.devs|
    requires out == if i + 1 < |s.devs| then Some(Sent(Right, Msg(i, BR, true))) else None
    ensures IsRun(Deliver(s, i, out), es, s) && JustReads(es)
  {
    if i + 1 < |s.devs| {
      es := CarryAway(s, i + 1, Msg(i, BR, true));
      assert s.devs[i + 1].q + [Msg(i, BR, true)] == [Msg(i, BR, true)];
      assert Deliver(s, i, out).devs == Put(s, i + 1, Msg(i, BR, true)).devs;
    } else {
      es := [];
    }
  }

  lemma RunThen(s: Sys, es: seq<Event>, t: Sys, e: Event, fs: seq<Event>, u: Sys)
    requires IsRun(s, es, t) && Enabled(t, e) && IsRun(Step(t, e), fs, u)
    ensures IsRun(s, es + ([e] + fs), u)
  {
    assert ([e] + fs)[1..] == fs;
    RunConcat(s, es, t, [e] + fs, u);
  }

  /** The first half of a request: it has gone left, but not right. */
  function HalfAsked(s: Sys, i: nat): Sys
    requires i < |s.devs|
  {
    Flags(s, i, s.devs[i].p.(reqMaster := true), BrRight).(arbQ := s.arbQ + [Msg(0, BR, true)])
  }

  lemma StartsAsking(s: Sys, i: nat) returns (es: seq<Event>)
    requires Still(s) && i < |s.devs|
    ensures IsRun(s, es, HalfAsked(s, i)) && OnlyAsk(es, {i})
  {
    hide IsRun;
    var p := s.devs[i].p.(reqMaster := true);
    var s1 := Flags(s, i, p, Idle);
    assert Step(s, MainRequest(i)).devs == s1.devs;
    NoEvents(s);
    NoEvents(s1);
    RunThen(s, [], s, MainRequest(i), [], s1);
    var s2 := Flags(s, i, p, BrRight);
    var toArbiter := SendsLeft(s2, i, Msg(i, BR, true));
    assert Step(s1, StartRequest(i)) == Deliver(s2, i, Some(Sent(Left, Msg(i, BR, true)))) by {
      assert s1.devs[i := Node(p, BrRight, [])] == s2.devs;
    }
    es := [] + ([MainRequest(i)] + []);
    RunThen(s, es, s1, StartRequest(i), toArbiter, HalfAsked(s, i));
    es := es + ([StartRequest(i)] + toArbiter);
  }

  lemma Asks(s: Sys, i: nat) returns (es: seq<Event>)
    requires Still(s) && i < |s.devs|
    ensures IsRun(s, es, Asked(s, i)) && OnlyAsk(es, {i})
    ensures Still(Asked(s, i))
  {
    hide IsRun, LetsPass;
    var half, t := HalfAsked(s, i), Asked(s, i);
    es := StartsAsking(s, i);
    assert Still(t);
    var out := if i + 1 < |s.devs| then Some(Sent(Right, Msg(i, BR, true))) else None;
    var toEnd := SendsRight(t, i, out);
    assert Step(half, GoOn(i)) == Deliver(t, i, out) by {
      assert Continue(half.devs[i].p, BrRight) == Micro(t.devs[i].p, Idle, out);
      assert half.devs[i := t.devs[i]] == t.devs;
    }
    RunThen(s, es, half, GoOn(i), toEnd, t);
    es := es + ([GoOn(i)] + toEnd);
  }

  lemma NoEvents(s: Sys)
    ensures IsRun(s, [], s)
  {
  }

  /** The device the grant has reached takes it, and its SACK goes up to the arbiter. */
  lemma TakesGrant(s: Sys, i: nat) returns (es: seq<Event>)
    requires Still(s) && i < |s.devs| && s.devs[i].p.brIssued
    ensures IsRun(Put(s, i, Msg(i - 1, BG, true)), es,
                  Flags(s, i, s.devs[i].p.(brIssued := false, sackAsserted := true), Idle)
                    .(arbQ := s.arbQ + [Msg(0, SACK, true)]))
    ensures JustReads(es)
  {
    hide IsRun, LetsPass;
    var bg, sack := Msg(i - 1, BG, true), Msg(i, SACK, true);
    var p := s.devs[i].p.(brIssued := false, sackAsserted := true);
    var t := Flags(s, i, p, Idle);
    var up := SendsLeft(t, i, sack);
    assert Step(Put(s, i, bg), Read(i)) == Deliver(t, i, Some(Sent(Left, sack))) by {
      assert Receive(s.devs[i].p, bg) == Micro(p, Idle, Some(Sent(Left, sack)));
      assert [bg][1..] == [];
      assert Put(s, i, bg).devs[i := Node(p, Idle, [])] == t.devs;
    }
    NoEvents(Put(s, i, bg));
    RunThen(Put(s, i, bg), [], Put(s, i, bg), Read(i), up, t.(arbQ := s.arbQ + [Msg(0, SACK, true)]));
    es := [] + ([Read(i)] + up);
  }

  lemma IsGranted(s: Sys, i: nat) returns (es: seq<Event>)
    requires Still(s) && i < |s.devs| && s.arbQ != [] && s.arbQ[0].sig == BR
    requires s.devs[i].p.brIssued && forall x :: 0 <= x < i ==> !s.devs[x].p.brIssued
    ensures IsRun(s, es, Granted(s, i)) && OnlyAsk(es, {})
    ensures Still(Granted(s, i))
  {
    hide IsRun, Receive;
    var bg := Msg(ARBITER, BG, true);
    var s1 := s.(arb := s.arb.(outstandingBg := true), arbQ := s.arbQ[1..]);
    assert Step(s, ArbRead) == Put(s1, 0, bg) by {
      assert s.devs[0].q + [bg] == [bg];
    }
    var down := CarryRight(s1, 0, i, bg);
    NoEvents(s);
    RunThen(s, [], s, ArbRead, down, Put(s1, i, bg.(from := i - 1)));
    es := [] + ([ArbRead] + down);
    var up := TakesGrant(s1, i);
    RunConcat(s, es, Put(s1, i, bg.(from := i - 1)), up, Granted(s, i));
    es := es + up;
  }

  /** Two devices anywhere in a chain: both ask, and the arbiter grants both requests before
      it has seen SACK.  The first grant stops at the nearer device, which lets the second
      pass. */
  lemma TwoDevicesAssertSack(n: nat, i: nat, j: nat) returns (es: seq<Event>, t: Sys)
    requires i < j < n
    ensures IsRun(Init(n), es, t) && OnlyAsk(es, {i, j})
    ensures |t.devs| == n && t.devs[i].p.sackAsserted && t.devs[j].p.sackAsserted
  {
    hide IsRun;
    var s := Init(n);
    var a := Asks(s, i);
    var s1 := Asked(s, i);
    var b := Asks(s1, j);
    var s2 := Asked(s1, j);
    RunConcat(s, a, s1, b, s2);
    var c := IsGranted(s2, i);
    var s3 := Granted(s2, i);
    RunConcat(s, a + b, s2, c, s3);
    var d := IsGranted(s3, j);
    t := Granted(s3, j);
    RunConcat(s, a + b + c, s3, d, t);
    es := a + b + c + d;
  }

  /** The exact condition: SACK is exclusive in all runs in which only the devices in `asking`
      ask for the bus if and only if at most one device of the chain is among them. */
  lemma SackExclusiveExactly(n: nat, asking: set<nat>)
    ensures (forall es, t :: IsRun(Init(n), es, t) && OnlyAsk(es, asking) ==> OneSack(t))
            <==> (forall i, j :: i in asking && j in asking && i < n && j < n ==> i == j)
  {
    if i, j :| i in asking && j in asking && i < n && j < n && i != j {
      var es, t := TwoDevicesAssertSack(n, if i < j then i else j, if i < j then j else i);
      assert !OneSack(t);
    } else {
      forall es, t | IsRun(Init(n), es, t) && OnlyAsk(es, asking) ensures OneSack(t) {
        assert OthersUnasked(Init(n), asking);
        RunStaysUnasked(Init(n), es, t, asking);
        RunLength(Init(n), es, t);
      }
    }
  }

  lemma {:induction false} RunLength(s: Sys, es: seq<Event>, t: Sys)
    requires IsRun(s, es, t)
    ensures |t.devs| == |s.devs|
    decreases |es|
  {
    if es != [] {
      if s.devs != [] {
        OthersStay(s, es[0], 0);
      }
      RunLength(Step(s, es[0]), es[1..], t);
    }
  }
}
