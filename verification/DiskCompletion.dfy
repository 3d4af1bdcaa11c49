/** Every command comes to its end: the controller asks for each byte it needs and reports DONE
    after the last, within a few of its steps. */
module DiskCompletion {
  import opened MemoryDevice
  import opened Rx11
  import opened DiskProtocol

  /** The controller's thread alone, for `k` steps. */
  function After(s: Sys, k: nat): Sys
    decreases k
  {
    if k == 0 then s else After(Next(s, DiskStep), k - 1)
  }

  /** The bytes a command takes. */
  function Bytes(c: Cmd): nat { if c == Fill then SECTOR_SIZE else 2 }

  /** The flag a polling host waits for: the request for its next byte, or the end. */
  function Awaited(s: Sys): bv16 { if |s.sent| == Bytes(s.cmd) then DONE else XFER }

  predicate Polls(s: Sys) { s.host == AwaitXfer || s.host == AwaitMore }

  /** How many steps the controller still needs to show it. */
  function Distance(s: Sys, st: Stage): nat {
    var v := s.v;
    match st
    case Rest => if v.cells.cs == DONE then 0 else if v.pc == Top then 2 else 1
    case Asked =>
      3 + (if v.pc.DoneOr? then 1 else if v.d.state == S_FILL then (if v.pc == Top then 2 else 1) else 0)
    case Clearing => 2
    case Setting => 1
    case FillWait => 0
    case FillTake =>
      (match v.pc case Top => 6 case FillFlags => 5 case FillOr1(_) => 4 case FillRead(_) => 3 case _ => 2)
    case FillNext => 1
    case SectorWait => 0
    case SectorTake => (match v.pc case Top => 4 case SecFlags => 3 case _ => 2)
    case SectorNext => 1
    case TrackWait => 0
    case TrackTake => (match v.pc case Top => 8 case SecFlags => 7 case _ => 6)
    case Moving => (match v.pc case Top => 5 case SecFlags => 4 case _ => 3)
  }

  lemma DistanceBound(s: Sys, st: Stage)
    ensures Distance(s, st) <= 8
  {
  }

  /** At no distance the flag is shown, and only that one. */
  lemma ShownAtZero(init: Drive, s: Sys, st: Stage)
    requires At(init, s, st) && Polls(s) && Distance(s, st) == 0
    ensures s.v.cells.cs == Awaited(s) && (s.host == AwaitXfer ==> |s.sent| == 0)
  {
    hide Replay, AllComplete, Apply, CommandsAt;
  }

  // One step brings it nearer

  /** What the controller's step does to a state at a distance. */
  ghost predicate Nearer(init: Drive, s: Sys, st: Stage, st': Stage) {
    && At(init, Next(s, DiskStep), st') && Distance(Next(s, DiskStep), st') < Distance(s, st)
  }

  lemma RestNearer(init: Drive, s: Sys)
    requires At(init, s, Rest) && Polls(s) && Distance(s, Rest) > 0
    ensures Nearer(init, s, Rest, Rest)
  {
    hide Replay, FileWrite, FileRead, Offset, AllComplete, Apply, Complete, Pending;
  }

  lemma AskedNearer(init: Drive, s: Sys) returns (st': Stage)
    requires At(init, s, Asked) && Polls(s)
    ensures Nearer(init, s, Asked, st')
  {
    hide Replay, FileWrite, FileRead, Offset, AllComplete, Apply, Complete;
    st' := if Step(s.v).pc.GoClear? then Clearing else Asked;
  }

  lemma TakenNearer(init: Drive, s: Sys, st: Stage) returns (st': Stage)
    requires At(init, s, st) && Polls(s) && (st == Clearing || st == Setting)
    ensures Nearer(init, s, st, st')
  {
    hide Replay, FileWrite, FileRead, Offset, AllComplete, Apply;
    if st == Clearing {
      st' := Setting;
    } else {
      st' := if s.cmd == Fill then FillWait else SectorWait;
      assert s.v.d.buffer[..0] == [];
    }
  }

  lemma FillNearer(init: Drive, s: Sys, st: Stage) returns (st': Stage)
    requires At(init, s, st) && Polls(s) && (st == FillTake || st == FillNext)
    ensures Nearer(init, s, st, st')
  {
    hide Replay, FileWrite, FileRead, Offset, Pending;
    var d := s.v.d;
    if st == FillTake {
      st' := if s.v.pc.FillStore? then FillNext else st;
      if s.v.pc.FillStore? {
        assert d.buffer[d.index := s.sent[d.index]][..d.index + 1] == s.sent;
      }
    } else {
      st' := if d.index == SECTOR_SIZE then Rest else FillWait;
      assert d.index == SECTOR_SIZE ==> d.buffer == s.sent;
    }
  }

  lemma SectorNearer(init: Drive, s: Sys, st: Stage) returns (st': Stage)
    requires At(init, s, st) && Polls(s) && (st == SectorTake || st == SectorNext)
    ensures Nearer(init, s, st, st')
  {
    hide Replay, FileWrite, FileRead, Offset, AllComplete, Apply, Complete, Settled, Pending, Held;
    st' := if st == SectorNext then TrackWait else if s.v.pc.SecRead? then SectorNext else st;
  }

  lemma TrackNearer(init: Drive, s: Sys) returns (st': Stage)
    requires At(init, s, TrackTake) && Polls(s)
    ensures Nearer(init, s, TrackTake, st')
  {
    hide Replay, FileWrite, FileRead, Offset, AllComplete, Apply, Complete, Settled, Pending, Held;
    st' := if s.v.pc == TrkRead then Moving else TrackTake;
  }

  lemma MovingNearer(init: Drive, s: Sys) returns (st': Stage)
    requires At(init, s, Moving) && Polls(s)
    ensures Nearer(init, s, Moving, st')
  {
    hide Replay, FileWrite, FileRead, Offset, Pending, AllComplete, Apply, Complete, Settled, Held;
    if s.v.pc == Transfer {
      st' := Rest;
      TransferKeeps(init, s);
      TransferEnds(s);
    } else {
      st' := Moving;
    }
  }

  lemma TransferEnds(s: Sys)
    requires s.v.pc == Transfer && s.v.cells.cs == 0
    ensures Distance(Next(s, DiskStep), Rest) == 2
  {
    hide FileWrite, FileRead, Offset;
  }

  lemma StepNearer(init: Drive, s: Sys, st: Stage) returns (st': Stage)
    requires At(init, s, st) && Polls(s) && Distance(s, st) > 0
    ensures Nearer(init, s, st, st')
  {
    hide At, Nearer, Next;
    match st {
      case Rest =>
        RestNearer(init, s);
        st' := Rest;
      case Asked => st' := AskedNearer(init, s);
      case Clearing => st' := TakenNearer(init, s, st);
      case Setting => st' := TakenNearer(init, s, st);
      case FillTake => st' := FillNearer(init, s, st);
      case FillNext => st' := FillNearer(init, s, st);
      case TrackTake => st' := TrackNearer(init, s);
      case Moving => st' := MovingNearer(init, s);
      case _ => st' := SectorNearer(init, s, st);
    }
  }

  /** The controller alone touches nothing of the host's. */
  lemma HostStays(s: Sys)
    ensures var t := Next(s, DiskStep);
            t.host == s.host && t.cmd == s.cmd && t.sent == s.sent && t.log == s.log
  {
  }

  lemma {:induction false} Shows(init: Drive, s: Sys, st: Stage) returns (k: nat)
    requires At(init, s, st) && Polls(s)
    ensures k <= Distance(s, st)
    ensures var t := After(s, k);
            && t.host == s.host && t.cmd == s.cmd && t.sent == s.sent && t.log == s.log
            && t.v.cells.cs == Awaited(s) && Inv(init, t)
    ensures s.host == AwaitXfer ==> |s.sent| == 0
    decreases Distance(s, st)
  {
    hide At, Distance, Next, Awaited;
    if Distance(s, st) == 0 {
      ShownAtZero(init, s, st);
      k := 0;
      SameAwaited(s, s);
    } else {
      var st' := StepNearer(init, s, st);
      HostStays(s);
      SameAwaited(s, Next(s, DiskStep));
      assert At(init, Next(s, DiskStep), st');
      var j := Shows(init, Next(s, DiskStep), st');
      k := j + 1;
    }
  }

  lemma SameAwaited(s: Sys, t: Sys)
    requires t.cmd == s.cmd && t.sent == s.sent
    ensures Awaited(t) == Awaited(s)
  {
  }

  lemma {:induction false} AfterIsRun(s: Sys, k: nat) returns (es: seq<Event>)
    requires Polls(s)
    ensures IsRun(s, es, After(s, k)) && |es| == k && forall i :: 0 <= i < k ==> es[i] == DiskStep
    decreases k
  {
    hide Next;
    if k == 0 {
      es := [];
    } else {
      HostStays(s);
      var fs := AfterIsRun(Next(s, DiskStep), k - 1);
      es := [DiskStep] + fs;
      assert es[1..] == fs;
    }
  }

  // In every run

  /** A host that waits for the next transfer request gets it: within 8 steps of the controller
      alone its poll succeeds. */
  lemma OfferComes(s: Sys, es: seq<Event>, t: Sys) returns (k: nat)
    requires Start(s) && IsRun(s, es, t) && Polls(t) && |t.sent| != Bytes(t.cmd)
    ensures k <= 8 && After(t, k).v.cells.cs == XFER
    ensures Next(After(t, k), Poll) == After(t, k).(host := Offered) && After(t, k).sent == t.sent
  {
    hide At;
    var st := Reached(s, es, t);
    DistanceBound(t, st);
    k := Shows(Held(s.v.d), t, st);
    PollSees(After(t, k));
  }

  /** A host that has handed over all bytes of its command sees the end: within 8 steps of the
      controller alone DONE is shown, and the command is complete. */
  lemma EndComes(s: Sys, es: seq<Event>, t: Sys) returns (k: nat)
    requires Start(s) && IsRun(s, es, t) && t.host == AwaitMore && |t.sent| == Bytes(t.cmd)
    ensures k <= 8 && After(t, k).v.cells.cs == DONE
    ensures var u := Next(After(t, k), Poll); u.host == Ready && u.log == t.log + [Entry(t.cmd, t.sent)]
  {
    hide At;
    var st := Reached(s, es, t);
    DistanceBound(t, st);
    k := Shows(Held(s.v.d), t, st);
    PollSees(After(t, k));
  }

  lemma PollSees(s: Sys)
    requires Polls(s)
    ensures s.v.cells.cs == XFER ==> Next(s, Poll) == s.(host := Offered)
    ensures s.v.cells.cs == DONE && s.host == AwaitMore ==>
              Next(s, Poll) == s.(host := Ready, log := s.log + [Entry(s.cmd, s.sent)])
  {
  }

  // Whole commands

  lemma {:induction false} RunConcat(s: Sys, es: seq<Event>, t: Sys, fs: seq<Event>, u: Sys)
    requires IsRun(s, es, t) && IsRun(t, fs, u)
    ensures IsRun(s, es + fs, u)
    decreases |es|
  {
    hide Next, Enabled;
    if es == [] {
      assert es + fs == fs;
    } else {
      assert (es + fs)[1..] == es[1..] + fs;
      RunConcat(Next(s, es[0]), es[1..], t, fs, u);
    }
  }

  lemma RunOne(s: Sys, e: Event)
    requires Enabled(s, e)
    ensures IsRun(s, [e], Next(s, e))
  {
    assert IsRun(Next(s, e), [], Next(s, e)) && [e][1..] == [];
  }

  /** Handing over one byte, from a poll that sees the request to the next poll. */
  lemma HandsOver(s: Sys, es: seq<Event>, t: Sys, b: byte) returns (fs: seq<Event>, u: Sys)
    requires Start(s) && IsRun(s, es, t) && Polls(t) && |t.sent| != Bytes(t.cmd)
    ensures IsRun(t, fs, u) && u.host == AwaitMore && u.cmd == t.cmd && u.sent == t.sent + [b] && u.log == t.log
  {
    hide IsRun, Next;
    var k := OfferComes(s, es, t);
    fs := AfterIsRun(t, k);
    var a := After(t, k);
    AfterHost(t, k);
    RunOne(a, Poll);
    RunConcat(t, fs, a, [Poll], Next(a, Poll));
    var c := Next(a, Poll);
    RunOne(c, Put(b));
    RunConcat(t, fs + [Poll], c, [Put(b)], Next(c, Put(b)));
    var d := Next(c, Put(b));
    Wrote(c, b);
    RunOne(d, SideEffect);
    RunConcat(t, fs + [Poll] + [Put(b)], d, [SideEffect], Next(d, SideEffect));
    fs, u := fs + [Poll] + [Put(b)] + [SideEffect], Next(d, SideEffect);
  }

  lemma {:induction false} AfterHost(s: Sys, k: nat)
    ensures var t := After(s, k); t.host == s.host && t.cmd == s.cmd && t.sent == s.sent && t.log == s.log
    decreases k
  {
    if k > 0 {
      HostStays(s);
      AfterHost(Next(s, DiskStep), k - 1);
    }
  }

  lemma Wrote(s: Sys, b: byte)
    requires s.host == Offered
    ensures var t := Next(s, Put(b)); var u := Next(t, SideEffect);
            && t.host == Writing(b) && u.host == AwaitMore
            && u.cmd == s.cmd && u.sent == s.sent + [b] && u.log == s.log
  {
  }

  lemma {:induction false} HandsOverAll(s: Sys, es: seq<Event>, t: Sys, bs: seq<byte>) returns (fs: seq<Event>, u: Sys)
    requires Start(s) && IsRun(s, es, t) && Polls(t) && |t.sent| + |bs| == Bytes(t.cmd) && bs != []
    ensures IsRun(t, fs, u) && u.host == AwaitMore && u.cmd == t.cmd && u.sent == t.sent + bs && u.log == t.log
    decreases |bs|
  {
    hide IsRun, Next;
    fs, u := HandsOver(s, es, t, bs[0]);
    assert t.sent + [bs[0]] + bs[1..] == t.sent + bs;
    if |bs| > 1 {
      RunConcat(s, es, t, fs, u);
      var gs, w := HandsOverAll(s, es + fs, u, bs[1..]);
      RunConcat(t, fs, u, gs, w);
      fs, u := fs + gs, w;
    }
  }

  /** From every reachable state in which the host is free, every command with its bytes has a
      run that completes it. */
  lemma EveryCommandCompletes(s: Sys, es: seq<Event>, t: Sys, e: Entry) returns (fs: seq<Event>, u: Sys)
    requires Start(s) && IsRun(s, es, t) && t.host == Ready && Complete(e)
    ensures IsRun(t, fs, u) && u.host == Ready && u.log == t.log + [e]
  {
    hide IsRun, Next;
    var a := Next(t, Go(e.cmd));
    Started(t, e.cmd);
    RunOne(t, Go(e.cmd));
    RunConcat(s, es, t, [Go(e.cmd)], a);
    var gs, b := HandsOverAll(s, es + [Go(e.cmd)], a, e.bytes);
    assert [] + e.bytes == e.bytes;
    RunConcat(t, [Go(e.cmd)], a, gs, b);
    RunConcat(s, es, t, [Go(e.cmd)] + gs, b);
    var k := EndComes(s, es + ([Go(e.cmd)] + gs), b);
    var hs := AfterIsRun(b, k);
    AfterHost(b, k);
    RunConcat(t, [Go(e.cmd)] + gs, b, hs, After(b, k));
    RunOne(After(b, k), Poll);
    RunConcat(t, [Go(e.cmd)] + gs + hs, After(b, k), [Poll], Next(After(b, k), Poll));
    fs, u := [Go(e.cmd)] + gs + hs + [Poll], Next(After(b, k), Poll);
  }

  lemma Started(s: Sys, c: Cmd)
    requires s.host == Ready
    ensures var t := Next(s, Go(c)); t.host == AwaitXfer && t.cmd == c && t.sent == [] && t.log == s.log
  {
  }

  // The end of a command, and blocks never written

  /** A pass with nothing more to do but say so. */
  lemma DoneReported(d: Disk, c: Cells)
    requires d.state == S_DONE && d.func == F_IDLE && c.cs & GO == 0
    ensures Pass(d, c) == View(d.(state := S_BEGIN), Top, c.(cs := c.cs | DONE))
  {
    assert c.cs | (c.cs | DONE) == c.cs | DONE;
  }

  /** When the buffer has been dealt with, two passes later the controller is at rest again and DONE
      is shown, whatever else the status shows. */
  lemma BufferEnds(d: Disk, c: Cells)
    requires (d.state == S_FILL && d.func == F_FILL) || (d.state == S_EMPTY && d.func == F_EMPTY)
    requires d.index == SECTOR_SIZE && c.cs & GO == 0
    ensures var v := Pass(d, c);
            && v == View(d.(index := 0, state := S_DONE, func := F_IDLE), Top, c)
            && Pass(v.d, v.cells) == View(d.(index := 0, state := S_BEGIN, func := F_IDLE), Top, c.(cs := c.cs | DONE))
  {
    DoneReported(d.(index := 0, state := S_DONE, func := F_IDLE), c);
  }

  /** The same for a block that is moved; its place is forgotten. */
  lemma BlockEnds(d: Disk, c: Cells)
    requires (d.state == S_WRITE && d.func == F_WRITE) || (d.state == S_READ && d.func == F_READ)
    requires c.cs & GO == 0
    ensures var v := Pass(d, c);
            && v.cells == c && v.d.state == S_DONE && v.d.track == 0 && v.d.sector == 0
            && Pass(v.d, v.cells) == View(v.d.(state := S_BEGIN), Top, c.(cs := c.cs | DONE))
  {
    hide FileWrite, FileRead, Offset;
    var v := Pass(d, c);
    assert v.d.func == F_IDLE;
    DoneReported(v.d, c);
  }

  /** Every byte that is read after a block was written: the block's own, the file's, zero between
      the file's old end and the block, and beyond all of it what the buffer held. */
  lemma ReadsAfterWrite(file: seq<byte>, at: nat, data: Sector, off: nat, was: Sector, i: nat)
    requires i < SECTOR_SIZE
    ensures FileRead(FileWrite(file, at, data), off, was)[i] ==
              if at <= off + i < at + SECTOR_SIZE then data[off + i - at]
              else if off + i < |file| then file[off + i]
              else if off + i < at then ZERO
              else was[i]
  {
  }
}
