/** While at most one device asks for the bus, the permission to be master is always somewhere. */
module LoneAsker {
  import opened Wrappers
  import opened Signals
  import opened PriorityBus
  import opened PriorityChain
  import opened BusStreams
  import opened ArbitrationCore
  import opened ChainSafety
  import opened ChainTraffic
  import opened MarkedBus
  import opened GrantSafety
  import opened SackSharing
  import opened BusPermission
  import opened GrantWords
  import BusArbiter

  // Where the permission is

  ghost predicate AllAsk(w: seq<Letter>) { forall k :: 0 <= k < |w| ==> w[k] == Ask }

  /** Only the last letter is `l`. */
  ghost predicate Closes(w: seq<Letter>, l: Letter) { w != [] && w[|w| - 1] == l && AllAsk(w[..|w| - 1]) }

  /** The device holds SACK and has not begun to give it back. */
  predicate Keeps(d: Node) { d.p.sackAsserted && d.pc != RelSackRight && d.pc != RelSackClear }

  /** With the arbiter: acknowledgements can be on their way only for an outstanding grant. */
  ghost predicate WithArbiter(a: BusArbiter.Arb, up: seq<Letter>, down: seq<Letter>, d: Node) {
    && !a.sack && AllAsk(up) && AllAsk(down) && PhaseOf(d) != Hold
    && (up != [] || down != [] ==> a.outstandingBg) && (up != [] ==> Keeps(d))
  }

  ghost predicate OnWayDown(a: BusArbiter.Arb, up: seq<Letter>, down: seq<Letter>, d: Node) {
    a.sack && AllAsk(up) && Closes(down, GrantOff) && Keeps(d) && PhaseOf(d) != Hold
  }

  ghost predicate WithDevice(a: BusArbiter.Arb, up: seq<Letter>, down: seq<Letter>, d: Node) {
    a.sack && AllAsk(up) && down == [] && PhaseOf(d) == Hold
  }

  ghost predicate OnWayUp(a: BusArbiter.Arb, up: seq<Letter>, down: seq<Letter>, d: Node) {
    a.sack && Closes(up, SackOff) && down == [] && PhaseOf(d) != Hold
  }

  ghost predicate Where(a: BusArbiter.Arb, up: seq<Letter>, down: seq<Letter>, d: Node) {
    WithArbiter(a, up, down, d) || OnWayDown(a, up, down, d) || WithDevice(a, up, down, d) || OnWayUp(a, up, down, d)
  }

  /** Device `d` is the only one that asks. */
  ghost predicate Lone(s: Sys, d: nat) {
    && d < |s.devs| && OthersUnasked(s, {d}) && NoneBeyond(s, d)
    && Where(s.arb, Up(s), Down(s, d), s.devs[d])
  }

  lemma GrantSomewhere(s: Sys, d: nat)
    requires d < |s.devs| && GrantOff in Down(s, d)
    ensures exists i :: 0 <= i < |s.devs| && !Empty(s.devs[i].q, i)
  {
    hide DownWord;
    RightMember(Downs(s.devs), d, GrantOff);
    var i :| 0 <= i <= d && GrantOff in Downs(s.devs)[i];
    UpDownHas(s.devs[i].q, i);
    assert !Empty(s.devs[i].q, i);
  }

  lemma FreeSomewhere(s: Sys)
    requires SackOff in Up(s)
    ensures (exists i :: 0 <= i < |s.devs| && !Empty(s.devs[i].q, i))
            || (exists k :: 0 <= k < |s.arbQ| && Frees(s.arbQ[k], ARBITER))
  {
    hide UpWord;
    UpDownHas(s.arbQ, ARBITER);
    LeftMember(Ups(s.devs), 0, SackOff);
    if SackOff in Leftward(Ups(s.devs), 0) {
      var i :| 0 <= i < |s.devs| && SackOff in Ups(s.devs)[i];
      UpDownHas(s.devs[i].q, i);
      assert !Empty(s.devs[i].q, i);
    }
  }

  lemma NotDead(s: Sys, d: nat)
    requires Lone(s, d)
    ensures !Dead(s)
  {
    hide UpWord, DownWord, PhaseOf, Up, Down, Empty;
    assert PhaseOf(s.devs[d]) == Hold ==> !DeadNode(s.devs[d], d);
    if GrantOff in Down(s, d) {
      GrantSomewhere(s, d);
      var i :| 0 <= i < |s.devs| && !Empty(s.devs[i].q, i);
      assert !DeadNode(s.devs[i], i);
    } else if SackOff in Up(s) {
      FreeSomewhere(s);
      if i :| 0 <= i < |s.devs| && !Empty(s.devs[i].q, i) {
        assert !DeadNode(s.devs[i], i);
      }
    }
  }

  // How the words and the device move together

  lemma AskAppend(w: seq<Letter>, l: Letter)
    requires AllAsk(w)
    ensures AllAsk(w + [Ask]) && Closes(w + [l], l)
  {
    assert (w + [l])[..|w|] == w;
  }

  lemma AllButFirst(h: Letter, v: seq<Letter>)
    requires AllAsk([h] + v)
    ensures h == Ask && AllAsk(v)
  {
    var w := [h] + v;
    assert w[0] == h && w[1..] == v;
  }

  /** The first letter of a word is `Ask`, or the last one. */
  lemma FirstOf(w: seq<Letter>, h: Letter, v: seq<Letter>, l: Letter)
    requires w == [h] + v && l != Ask
    ensures AllAsk(w) ==> h == Ask && AllAsk(v)
    ensures Closes(w, l) ==> if v == [] then h == l else h == Ask && Closes(v, l)
  {
    if AllAsk(w) {
      AllButFirst(h, v);
    } else if Closes(w, l) && v != [] {
      assert w[..|w| - 1] == [h] + v[..|v| - 1];
      AllButFirst(h, v[..|v| - 1]);
    }
  }

  /** A grant on its way that has reached the device. */
  lemma ReadsAsk(a: BusArbiter.Arb, up: seq<Letter>, down: seq<Letter>, v: seq<Letter>, d: Node, e: Node)
    requires Where(a, up, down, d) && down == [Ask] + v && d.pc == Idle && e.pc == Idle
    requires e.p.isMaster == d.p.isMaster && (d.p.sackAsserted ==> e.p.sackAsserted)
    ensures Where(a, up, v, e)
    ensures e.p.sackAsserted ==> Where(a, up + [Ask], v, e)
  {
    FirstOf(down, Ask, v, GrantOff);
    if AllAsk(up) {
      AskAppend(up, Ask);
    }
  }

  lemma ReadsGrant(a: BusArbiter.Arb, up: seq<Letter>, down: seq<Letter>, v: seq<Letter>, d: Node, e: Node)
    requires Where(a, up, down, d) && down == [GrantOff] + v && PhaseOf(e) == Hold
    ensures d.p.sackAsserted && Where(a, up, v, e)
  {
    FirstOf(down, GrantOff, v, GrantOff);
  }

  lemma StartsLeaving(a: BusArbiter.Arb, up: seq<Letter>, down: seq<Letter>, d: Node, e: Node)
    requires Where(a, up, down, d) && PhaseOf(d) == Hold && PhaseOf(e) != Hold
    ensures Where(a, up + [SackOff], down, e)
  {
    AskAppend(up, SackOff);
  }

  /** Going on with a release, or with anything that does not concern SACK. */
  lemma GoesOn(a: BusArbiter.Arb, up: seq<Letter>, down: seq<Letter>, d: Node, e: Node)
    requires Where(a, up, down, d) && (PhaseOf(e) == Hold <==> PhaseOf(d) == Hold) && (Keeps(d) ==> Keeps(e))
    ensures Where(a, up, down, e)
  {
  }

  lemma ArbMoves(a: BusArbiter.Arb, m: Msg, up: seq<Letter>, v: seq<Letter>, down: seq<Letter>, d: Node)
    requires Where(a, up, down, d) && up == UpMark(m) + v && !a.outstandingNpg && m.sig != NPR
    ensures var r := BusArbiter.Receive(a, m);
            Where(r.arb, v, down + (if r.out.Some? then DownMark(r.out.value) else []), d)
  {
    assert down + [] == down && [] + v == v;
    if m.sig == SACK {
      FirstOf(up, UpMark(m)[0], v, SackOff);
    }
    if AllAsk(down) {
      AskAppend(down, GrantOff);
    }
  }

  // Every step keeps it

  lemma ArbKeepsLone(s: Sys, d: nat)
    requires Sound(s) && Lone(s, d) && Enabled(s, ArbRead)
    ensures Lone(Step(s, ArbRead), d)
  {
    hide Up, Down, Where, UpMark, DownMark, Leftward, Rightward;
    var t := Step(s, ArbRead);
    assert Deliverable(s.arbQ[0], ARBITER, |s.devs|);
    ArbWords(s, d);
    ArbMoves(s.arb, s.arbQ[0], Up(s), Up(t), Down(s, d), s.devs[d]);
    assert t.devs[d].p == s.devs[d].p && t.devs[d].pc == s.devs[d].pc;
    SameWhere(t.arb, Up(t), Down(t, d), s.devs[d], t.devs[d]);
    StillUnasked(s, ArbRead, d);
  }

  lemma SameWhere(a: BusArbiter.Arb, up: seq<Letter>, down: seq<Letter>, d: Node, e: Node)
    requires Where(a, up, down, d) && e.p == d.p && e.pc == d.pc
    ensures Where(a, up, down, e)
  {
  }

  lemma StillUnasked(s: Sys, e: Event, d: nat)
    requires OthersUnasked(s, {d}) && Enabled(s, e) && (e.MainRequest? ==> e.i == d)
    ensures OthersUnasked(Step(s, e), {d})
  {
    hide Step;
    NoEvents(Step(s, e));
    assert [e][1..] == [];
    RunStaysUnasked(s, [e], Step(s, e), {d});
  }

  /** Reading a message that is passed on. */
  lemma PassesWords(s: Sys, i: nat, d: nat)
    requires Sound(s) && d < |s.devs| && NoneBeyond(s, d) && Enabled(s, Read(i)) && Passes(s.devs[i].p, s.devs[i].q[0])
    ensures var t := Step(s, Read(i)); var m := s.devs[i].q[0];
            && |t.devs| == |s.devs| && NoneBeyond(t, d) && Up(t) == Up(s)
            && Down(s, d) == (if i == d && m.from == i - 1 then DownMark(m) else []) + Down(t, d)
  {
    hide UpWord, DownWord, Up, Down, UpMark, DownMark, Receive, Fire, Passes;
    var q := s.devs[i].q;
    var m, x := q[0], Receive(s.devs[i].p, q[0]);
    PassedOn(s, i);
    assert [] + Down(s, d) == Down(s, d);
    if (if m.from == i - 1 then DownMark(m) else UpMark(m)) == [] {
      HeadWords(q, i);
      assert [] + UpWord(q[1..], i) == UpWord(q[1..], i) && [] + DownWord(q[1..], i) == DownWord(q[1..], i);
      SameMarks(m, i);
      PlainFire(s, i, x, q[1..], d);
    } else if m.from == i - 1 {
      PassDown(s, i, x, m, d);
    } else {
      PassUp(s, i, x, m, d);
    }
  }

  lemma SameMarks(m: Msg, i: int)
    ensures UpMark(m.(from := i)) == UpMark(m) && DownMark(m.(from := i)) == DownMark(m)
    ensures Msg(i, m.sig, m.asserted) == m.(from := i)
  {
  }

  // The steps of the devices that do not ask

  lemma Bystander(n: Node)
    requires Unasked(n) && Consistent(n)
    ensures !n.p.isMaster && n.pc != GrantRight && n.pc != GrantSet && n.pc != RelSackRight && n.pc != RelSackClear
    ensures n.q != [] ==> Passes(n.p, n.q[0])
    ensures n.pc != Idle ==> var x := Continue(n.p, n.pc); x.out.Some? ==> x.out.value.msg == Msg(n.p.self, BBSY, false)
  {
  }

  lemma OtherKeepsWords(s: Sys, e: Event, d: nat)
    requires Sound(s) && Lone(s, d) && Enabled(s, e) && !e.ArbRead? && e.i != d && !e.MainRequest?
    ensures SameWords(s, Step(s, e), d)
  {
    hide UpWord, DownWord, Up, Down, Receive, Continue, Passes, Fire, Where, Consistent;
    assert Consistent(s.devs[e.i]);
    Bystander(s.devs[e.i]);
    match e {
      case Read(i) =>
        PassesWords(s, i, d);
        assert [] + Down(Step(s, e), d) == Down(Step(s, e), d);
      case GoOn(i) => PlainFire(s, i, Continue(s.devs[i].p, s.devs[i].pc), s.devs[i].q, d);
    }
  }

  lemma OtherKeepsLone(s: Sys, e: Event, d: nat)
    requires Sound(s) && Lone(s, d) && Enabled(s, e) && !e.ArbRead? && e.i != d && !e.MainRequest?
    ensures Lone(Step(s, e), d)
  {
    hide Up, Down, Where, Step, Enabled, OthersUnasked;
    var t := Step(s, e);
    OtherKeepsWords(s, e, d);
    OthersStay(s, e, d);
    SameWhere(s.arb, Up(s), Down(s, d), s.devs[d], t.devs[d]);
    ArbStays(s, e);
    StillUnasked(s, e, d);
  }

  lemma ArbStays(s: Sys, e: Event)
    requires Enabled(s, e) && !e.ArbRead?
    ensures Step(s, e).arb == s.arb
  {
  }

  // The steps of the device that asks

  lemma GrantMeetsSack(a: BusArbiter.Arb, up: seq<Letter>, down: seq<Letter>, v: seq<Letter>, d: Node)
    requires Where(a, up, down, d) && down == [GrantOff] + v
    ensures d.p.sackAsserted
  {
    FirstOf(down, GrantOff, v, GrantOff);
  }

  /** What a step of the device makes of where the permission is. */
  ghost predicate WhereAfter(s: Sys, t: Sys, d: nat) {
    d < |t.devs| && NoneBeyond(t, d) && Where(s.arb, Up(t), Down(t, d), t.devs[d])
  }

  lemma PassesWhere(s: Sys, d: nat)
    requires Sound(s) && Lone(s, d) && Enabled(s, Read(d)) && Passes(s.devs[d].p, s.devs[d].q[0])
    ensures WhereAfter(s, Step(s, Read(d)), d)
  {
    hide UpWord, DownWord, Up, Down, Where, UpMark, Receive;
    var d0, m, t := s.devs[d], s.devs[d].q[0], Step(s, Read(d));
    assert Deliverable(m, d, |s.devs|);
    PassesWords(s, d, d);
    PassesFlags(s, d);
    if m.sig != BG {
      assert [] + Down(t, d) == Down(t, d);
      GoesOn(s.arb, Up(s), Down(s, d), d0, t.devs[d]);
    } else if m.asserted {
      ReadsAsk(s.arb, Up(s), Down(s, d), Down(t, d), d0, t.devs[d]);
    } else {
      GrantMeetsSack(s.arb, Up(s), Down(s, d), Down(t, d), d0);
    }
  }

  lemma PassesFlags(s: Sys, i: nat)
    requires Enabled(s, Read(i)) && Passes(s.devs[i].p, s.devs[i].q[0]) && Sound(s)
    ensures var d, e := s.devs[i], Step(s, Read(i)).devs[i];
            |Step(s, Read(i)).devs| == |s.devs| && d.pc == Idle && e.pc == Idle
            && e.p.isMaster == d.p.isMaster && e.p.sackAsserted == d.p.sackAsserted
  {
    hide Receive, Passes;
    assert Deliverable(s.devs[i].q[0], i, |s.devs|);
    PassesLocally(s.devs[i].p, s.devs[i].q[0]);
  }

  lemma PassesLocally(p: Pr, m: Msg)
    requires Passes(p, m) && m.sig != NPG
    ensures var x := Receive(p, m);
            x.pc == Idle && x.p.isMaster == p.isMaster && x.p.sackAsserted == p.sackAsserted
  {
  }

  lemma AcknowledgesWhere(s: Sys, d: nat)
    requires Sound(s) && Lone(s, d) && Enabled(s, Read(d))
    requires s.devs[d].q[0].sig == BG && s.devs[d].q[0].asserted && s.devs[d].p.brIssued
    ensures WhereAfter(s, Step(s, Read(d)), d)
  {
    hide UpWord, DownWord, Up, Down, Where;
    var d0, m, t := s.devs[d], s.devs[d].q[0], Step(s, Read(d));
    assert Deliverable(m, d, |s.devs|);
    var x := Receive(d0.p, m);
    assert x.out == Some(Sent(Left, Msg(d, SACK, true)));
    TakeDown(s, x, m, d);
    ReadsAsk(s.arb, Up(s), Down(s, d), Down(t, d), d0, t.devs[d]);
  }

  lemma TakesWhere(s: Sys, d: nat)
    requires Sound(s) && Lone(s, d) && Enabled(s, Read(d)) && !s.devs[d].p.bbsyAsserted
    requires s.devs[d].q[0].sig == BG && !s.devs[d].q[0].asserted && s.devs[d].p.sackAsserted
    ensures WhereAfter(s, Step(s, Read(d)), d)
  {
    hide UpWord, DownWord, Up, Down, Where;
    var d0, m, t := s.devs[d], s.devs[d].q[0], Step(s, Read(d));
    assert Deliverable(m, d, |s.devs|);
    var x := Receive(d0.p, m);
    assert x.out == Some(Sent(Left, Msg(d, BBSY, true)));
    TakeDown(s, x, m, d);
    assert Up(s) + [] == Up(s);
    ReadsGrant(s.arb, Up(s), Down(s, d), Down(t, d), d0, t.devs[d]);
  }

  lemma RequestWhere(s: Sys, d: nat)
    requires Sound(s) && Lone(s, d) && Enabled(s, StartRequest(d))
    ensures WhereAfter(s, Step(s, StartRequest(d)), d)
  {
    hide UpWord, DownWord, Up, Down, Where;
    var d0, t := s.devs[d], Step(s, StartRequest(d));
    PlainFire(s, d, Request(d0.p), d0.q, d);
    GoesOn(s.arb, Up(s), Down(s, d), d0, t.devs[d]);
  }

  lemma ReleaseWhere(s: Sys, d: nat)
    requires Sound(s) && Lone(s, d) && Enabled(s, StartRelease(d))
    ensures WhereAfter(s, Step(s, StartRelease(d)), d)
  {
    hide UpWord, DownWord, Up, Down, Where;
    var d0, t := s.devs[d], Step(s, StartRelease(d));
    assert Consistent(d0);
    var x := Release(d0.p);
    var s1 := s.(devs := s.devs[d := Node(x.p, x.pc, d0.q)]);
    SetLanes(s, d, s1.devs[d]);
    SameLane(Ups(s.devs), d);
    SameLane(Downs(s.devs), d);
    SameLanes(s, s1, d);
    WriteUp(s1, Msg(d, SACK, false), d);
    StartsLeaving(s.arb, Up(s), Down(s, d), d0, t.devs[d]);
  }

  lemma SameLanes(s: Sys, t: Sys, d: nat)
    requires |t.devs| == |s.devs| && d < |s.devs| && t.arbQ == s.arbQ
    requires Ups(t.devs) == Ups(s.devs) && Downs(t.devs) == Downs(s.devs) && NoneBeyond(s, d)
    ensures SameWords(s, t, d)
  {
  }

  lemma GoOnWhere(s: Sys, d: nat)
    requires Sound(s) && Lone(s, d) && Enabled(s, GoOn(d))
    ensures WhereAfter(s, Step(s, GoOn(d)), d)
  {
    hide UpWord, DownWord, Up, Down, Where;
    var d0, t := s.devs[d], Step(s, GoOn(d));
    assert Consistent(d0);
    PlainFire(s, d, Continue(d0.p, d0.pc), d0.q, d);
    GoesOn(s.arb, Up(s), Down(s, d), d0, t.devs[d]);
  }

  lemma MainWhere(s: Sys, d: nat, p: Pr)
    requires Lone(s, d) && p == s.devs[d].p.(reqMaster := p.reqMaster, relMaster := p.relMaster)
    ensures WhereAfter(s, s.(devs := s.devs[d := s.devs[d].(p := p)]), d)
  {
    hide UpWord, DownWord, Up, Down, Where;
    var t := s.(devs := s.devs[d := s.devs[d].(p := p)]);
    SetLanes(s, d, t.devs[d]);
    SameLane(Ups(s.devs), d);
    SameLane(Downs(s.devs), d);
    SameLanes(s, t, d);
    GoesOn(s.arb, Up(s), Down(s, d), s.devs[d], t.devs[d]);
  }

  lemma DeviceKeepsLone(s: Sys, e: Event, d: nat)
    requires Sound(s) && Lone(s, d) && Enabled(s, e) && !e.ArbRead? && e.i == d
    requires e.Read? && Wakes(s.devs[d].p, s.devs[d].q[0]) ==> !s.devs[d].p.bbsyAsserted
    ensures Lone(Step(s, e), d)
  {
    hide Up, Down, Where, Receive, Continue, Request, Release, OthersUnasked, Sound;
    match e {
      case Read(_) =>
        if Passes(s.devs[d].p, s.devs[d].q[0]) {
          PassesWhere(s, d);
        } else if s.devs[d].q[0].asserted {
          AcknowledgesWhere(s, d);
        } else {
          TakesWhere(s, d);
        }
      case StartRequest(_) => RequestWhere(s, d);
      case StartRelease(_) => ReleaseWhere(s, d);
      case GoOn(_) => GoOnWhere(s, d);
      case MainRequest(_) => MainWhere(s, d, s.devs[d].p.(reqMaster := true));
      case MainRelease(_) => MainWhere(s, d, s.devs[d].p.(relMaster := true));
    }
    ArbStays(s, e);
    StillUnasked(s, e, d);
  }

  lemma {:induction false} RunKeepsLone(s: Sys, es: seq<Event>, t: Sys, d: nat, a: int)
    requires Timed(s, a) && Lone(s, d) && IsRun(s, es, t) && OnlyAsk(es, {d})
    ensures Lone(t, d)
    decreases |es|
  {
    hide InvAt, Timing, Lone, Step, Sound;
    if es != [] {
      var e := es[0];
      if e == ArbRead {
        ArbKeepsLone(s, d);
      } else if e.i != d {
        OtherKeepsLone(s, e, d);
      } else {
        if e.Read? && Wakes(s.devs[d].p, s.devs[d].q[0]) {
          ArrivesFree(s, d, a);
        }
        DeviceKeepsLone(s, e, d);
      }
      var b := TimedStep(s, e, a);
      RunKeepsLone(Step(s, e), es[1..], t, d, b);
    }
  }

  lemma StartsLone(n: nat, d: nat)
    requires d < n
    ensures Lone(Init(n), d)
  {
    var s := Init(n);
    LeftEmpty(Ups(s.devs), 0);
    EmptyRight(Downs(s.devs), d);
  }

  /** Requests come only from devices of the chain. */
  lemma {:induction false} AsksInChain(s: Sys, es: seq<Event>, t: Sys, asking: set<nat>, d: nat)
    requires IsRun(s, es, t) && OnlyAsk(es, asking)
    requires forall i :: i in asking && i < |s.devs| ==> i == d
    ensures OnlyAsk(es, {d})
    decreases |es|
  {
    if es != [] {
      if s.devs != [] {
        OthersStay(s, es[0], 0);
      }
      AsksInChain(Step(s, es[0]), es[1..], t, asking, d);
      assert es == [es[0]] + es[1..];
    }
  }

  /** With at most one asking device in the chain, the permission is always somewhere. */
  lemma PermissionKept(n: nat, es: seq<Event>, t: Sys, asking: set<nat>)
    requires IsRun(Init(n), es, t) && OnlyAsk(es, asking)
    requires forall i, j :: i in asking && j in asking && i < n && j < n ==> i == j
    ensures Permissions(t) == 1
  {
    hide Permissions, Lone, Timed, Dead, OnlyAsk;
    AtMostOne(n, es, t);
    DeadIsNone(t);
    if n == 0 {
      NoDevices(es, t);
    } else {
      var d := 0;
      if i :| i in asking && i < n {
        d := i;
      }
      AsksInChain(Init(n), es, t, asking, d);
      TimedStart(n);
      StartsLone(n, d);
      RunKeepsLone(Init(n), es, t, d, -1);
      NotDead(t, d);
    }
  }

  lemma NoDevices(es: seq<Event>, t: Sys)
    requires IsRun(Init(0), es, t)
    ensures t == Init(0) && !Dead(t)
  {
  }
}
