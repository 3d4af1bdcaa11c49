/** The disk controller's thread against a host that polls it: every interleaving of their
    single accesses to the two device registers. */
module DiskProtocol {
  import opened Wrappers
  import opened MemoryDevice
  import opened Rx11

  /** The commands a host transfers data for. */
  datatype Cmd = Fill | Write | Read

  /** The word a host writes to the status register to start a command. */
  function Code(c: Cmd): bv16 {
    match c
    case Fill => 0x0001
    case Write => 0x0005
    case Read => 0x0007
  }

  /** The host: free to start a command; polling for the first transfer request; having
      seen one; having written a byte whose side effect is still to come (it holds the
      write lock); polling for the next transfer request or the end. */
  datatype HostPc = Ready | AwaitXfer | Offered | Writing(b: byte) | AwaitMore

  /** A command the host has seen the end of, with the bytes it handed over. */
  datatype Entry = Entry(cmd: Cmd, bytes: seq<byte>)

  /** `sent` is what the host has handed over for the current command; `issued`, `taken`
      and `log` record the commands started, taken up and completed so far. */
  datatype Sys = Sys(v: View, host: HostPc, cmd: Cmd, sent: seq<byte>,
                     issued: seq<Cmd>, taken: seq<Cmd>, log: seq<Entry>)

  datatype Event = Go(cmd: Cmd) | Poll | Put(b: byte) | SideEffect | DiskStep

  predicate Enabled(s: Sys, e: Event) {
    match e
    case Go(_) => s.host == Ready
    case Poll => s.host == AwaitXfer || s.host == AwaitMore
    case Put(_) => s.host == Offered
    case SideEffect => s.host.Writing?
    case DiskStep => s.host.Writing? ==> !NeedsLock(s.v.pc)
  }

  function SetStatus(s: Sys, f: bv16): Sys { s.(v := s.v.(cells := s.v.cells.(cs := f))) }

  function Decode(r: bv16): Option<Cmd> {
    var code := (r & FS) >> 1;
    if code == 0 then Some(Fill) else if code == 2 then Some(Write) else if code == 3 then Some(Read) else None
  }

  function Next(s: Sys, e: Event): Sys {
    match e
    case Go(c) =>
      SetStatus(s, Code(c)).(host := AwaitXfer, cmd := c, sent := [], issued := s.issued + [c])
    case Poll =>
      if s.v.cells.cs & XFER != 0 then s.(host := Offered)
      else if s.host == AwaitMore && s.v.cells.cs & DONE != 0 then
        s.(host := Ready, log := s.log + [Entry(s.cmd, s.sent)])
      else s
    case Put(b) => s.(v := s.v.(cells := s.v.cells.(db := b)), host := Writing(b))
    case SideEffect =>
      SetStatus(s, s.v.cells.cs & !XFER)
        .(host := AwaitMore, sent := s.sent + [if s.host.Writing? then s.host.b else ZERO])
    case DiskStep =>
      s.(v := Step(s.v),
         taken := if s.v.pc.GoSet? && Decode(s.v.pc.r).Some? then s.taken + [Decode(s.v.pc.r).value] else s.taken)
  }

  ghost predicate IsRun(s: Sys, es: seq<Event>, t: Sys)
    decreases |es|
  {
    if es == [] then t == s
    else Enabled(s, es[0]) && IsRun(Next(s, es[0]), es[1..], t)
  }

  predicate Start(s: Sys) {
    && s.v.pc == Top && s.v.cells.cs == 0 && s.v.d.state == S_BEGIN && s.v.d.func == F_IDLE && s.v.d.index == 0
    && s.host == Ready && s.sent == [] && s.issued == [] && s.taken == [] && s.log == []
  }

  // The drive as an atomic object

  datatype Drive = Drive(buffer: Sector, image: Option<seq<byte>>)

  predicate Complete(e: Entry) {
    if e.cmd == Fill then |e.bytes| == SECTOR_SIZE else |e.bytes| == 2
  }

  /** The effect of a whole command: sector and track are the two bytes handed over. */
  function Apply(d: Drive, e: Entry): Drive
    requires Complete(e)
  {
    match e.cmd
    case Fill => d.(buffer := e.bytes)
    case Write =>
      if d.image.None? then d
      else d.(image := Some(FileWrite(d.image.value, Offset(e.bytes[1], e.bytes[0]), d.buffer)))
    case Read =>
      if d.image.None? then d
      else d.(buffer := FileRead(d.image.value, Offset(e.bytes[1], e.bytes[0]), d.buffer))
  }

  ghost predicate AllComplete(log: seq<Entry>) { forall k :: 0 <= k < |log| ==> Complete(log[k]) }

  ghost function Replay(d: Drive, log: seq<Entry>): Drive
    requires AllComplete(log)
    decreases |log|
  {
    if log == [] then d else Apply(Replay(d, log[..|log| - 1]), log[|log| - 1])
  }

  function Held(d: Disk): Drive { Drive(d.buffer, d.image) }

  // The invariant: how far the current command has got

  datatype Stage = Rest | Asked | Clearing | Setting
                 | FillWait | FillTake | FillNext
                 | SectorWait | SectorTake | SectorNext | TrackWait | TrackTake | Moving

  /** The controller has nothing more to do for any command, whatever it still does. */
  ghost predicate Settled(v: View) {
    || (v.pc == Top && v.d.state == S_BEGIN && v.d.func == F_IDLE && v.d.index == 0)
    || (v.pc == Top && v.d.state == S_DONE && v.d.func == F_IDLE && v.d.index == 0)
    || (v.pc.DoneOr? && (v.pc.r == 0 || v.pc.r == DONE) && v.d.state == S_BEGIN && v.d.func == F_IDLE && v.d.index == 0)
    || ((v.pc == Top || v.pc == FillFlags) && v.d.state == S_FILL && v.d.func == F_FILL && v.d.index == SECTOR_SIZE)
  }

  predicate Pending(cs: bv16, c: Cmd) { cs == Code(c) || cs == Code(c) | DONE }

  /** A host that has been offered a transfer, up to the moment its byte takes effect. */
  predicate Waits(s: Sys) {
    match s.host
    case Ready => false
    case AwaitXfer => |s.sent| == 0
    case Offered => true
    case Writing(b) => s.v.cells.db == b
    case AwaitMore => |s.sent| > 0
  }

  ghost predicate StageAt(s: Sys, st: Stage) {
    var v := s.v;
    var d := v.d;
    match st
    case Rest =>
      Settled(v) && (v.cells.cs == 0 || v.cells.cs == DONE) && (s.host == Ready || s.host == AwaitMore)
      && (s.host == AwaitMore && v.cells.cs == 0 ==> (v.pc == Top && d.state == S_DONE) || v.pc.DoneOr?)
    case Asked => Settled(v) && Pending(v.cells.cs, s.cmd) && s.host == AwaitXfer && s.sent == []
    case Clearing =>
      v.pc.GoClear? && Pending(v.pc.r, s.cmd) && Pending(v.cells.cs, s.cmd) && s.host == AwaitXfer && s.sent == []
      && d.func == F_IDLE && d.index == 0
    case Setting =>
      v.pc.GoSet? && Pending(v.pc.r, s.cmd) && v.cells.cs == 0 && s.host == AwaitXfer && s.sent == []
      && d.func == F_IDLE && d.index == 0
    case FillWait =>
      s.cmd == Fill && d.state == S_FILL && d.func == F_FILL && v.cells.cs == XFER && (v.pc == Top || v.pc == FillFlags)
      && d.index == |s.sent| < SECTOR_SIZE && Waits(s) && d.buffer[..d.index] == s.sent
    case FillTake =>
      s.cmd == Fill && d.state == S_FILL && d.func == F_FILL && v.cells.cs == 0
      && d.index + 1 == |s.sent| <= SECTOR_SIZE && s.host == AwaitMore && v.cells.db == s.sent[d.index]
      && d.buffer[..d.index] == s.sent[..d.index]
      && (v.pc == Top || v.pc == FillFlags || v.pc == FillOr1(0) || v.pc == FillRead(0)
          || v.pc == FillStore(0, s.sent[d.index]))
    case FillNext =>
      s.cmd == Fill && d.state == S_FILL && d.func == F_FILL && v.cells.cs == 0 && v.pc == FillOr2(0)
      && 0 < d.index == |s.sent| <= SECTOR_SIZE && s.host == AwaitMore && d.buffer[..d.index] == s.sent
    case SectorWait =>
      InSector(s) && d.state == S_SECTOR && v.cells.cs == XFER && (v.pc == Top || v.pc == SecFlags)
      && |s.sent| == 0 && Waits(s)
    case SectorTake =>
      InSector(s) && d.state == S_SECTOR && v.cells.cs == 0 && |s.sent| == 1 && v.cells.db == s.sent[0]
      && s.host == AwaitMore && (v.pc == Top || v.pc == SecFlags || v.pc == SecRead(0))
    case SectorNext =>
      InSector(s) && d.state == S_TRACK && v.cells.cs == 0 && |s.sent| == 1 && d.sector == s.sent[0]
      && s.host == AwaitMore && v.pc == SecOr(0)
    case TrackWait =>
      InSector(s) && d.state == S_TRACK && v.cells.cs == XFER && (v.pc == Top || v.pc == SecFlags)
      && |s.sent| == 1 && d.sector == s.sent[0] && Waits(s)
    case TrackTake =>
      InSector(s) && d.state == S_TRACK && v.cells.cs == 0 && |s.sent| == 2 && d.sector == s.sent[0]
      && v.cells.db == s.sent[1] && s.host == AwaitMore && (v.pc == Top || v.pc == SecFlags || v.pc == TrkRead)
    case Moving =>
      InSector(s) && d.state == (if s.cmd == Write then S_WRITE else S_READ) && v.cells.cs == 0 && |s.sent| == 2
      && d.sector == s.sent[0] && d.track == s.sent[1] && s.host == AwaitMore
      && (v.pc == Top || v.pc == SecFlags || v.pc == Transfer)
  }

  ghost predicate InSector(s: Sys) {
    s.cmd != Fill && s.v.d.func == (if s.cmd == Write then F_WRITE else F_READ) && s.v.d.index == 0
  }

  predicate Filling(st: Stage) { st == FillWait || st == FillTake || st == FillNext }

  /** What the drive holds: the completed commands, and the current one once it is done. */
  ghost predicate DataAt(init: Drive, s: Sys, st: Stage) {
    && AllComplete(s.log)
    && (var before := Replay(init, s.log);
        if st == Rest && s.host != Ready then
          Complete(Entry(s.cmd, s.sent)) && Held(s.v.d) == Apply(before, Entry(s.cmd, s.sent))
        else s.v.d.image == before.image && (!Filling(st) ==> s.v.d.buffer == before.buffer))
  }

  ghost predicate CommandsAt(s: Sys, st: Stage) {
    if st == Asked || st == Clearing || st == Setting then s.issued == s.taken + [s.cmd] else s.issued == s.taken
  }

  ghost predicate At(init: Drive, s: Sys, st: Stage) {
    StageAt(s, st) && DataAt(init, s, st) && CommandsAt(s, st)
  }

  ghost predicate Inv(init: Drive, s: Sys) { exists st :: At(init, s, st) }

  // Every step keeps it

  lemma ReplayAppend(d: Drive, log: seq<Entry>, e: Entry)
    requires AllComplete(log) && Complete(e)
    ensures AllComplete(log + [e]) && Replay(d, log + [e]) == Apply(Replay(d, log), e)
  {
    assert (log + [e])[..|log|] == log;
  }

  lemma PollKeeps(init: Drive, s: Sys, st: Stage)
    requires At(init, s, st) && Enabled(s, Poll)
    ensures At(init, Next(s, Poll), st)
  {
    hide Replay, FileWrite, FileRead, Offset;
    if st == Rest {
      ReplayAppend(init, s.log, Entry(s.cmd, s.sent));
    }
  }

  lemma SideEffectKeeps(init: Drive, s: Sys, st: Stage) returns (st': Stage)
    requires At(init, s, st) && Enabled(s, SideEffect)
    ensures At(init, Next(s, SideEffect), st')
  {
    hide Replay, FileWrite, FileRead, Offset, Apply, AllComplete, Complete, Held, Pending, Settled;
    st' := if st == FillWait then FillTake else if st == SectorWait then SectorTake else TrackTake;
  }

  lemma HostKeeps(init: Drive, s: Sys, e: Event, st: Stage) returns (st': Stage)
    requires At(init, s, st) && Enabled(s, e) && e != DiskStep && e != Poll
    ensures At(init, Next(s, e), st')
  {
    hide Replay, FileWrite, FileRead, Offset, Apply;
    match e {
      case Go(c) => st' := Asked;
      case Put(b) => st' := st;
      case SideEffect => st' := SideEffectKeeps(init, s, st);
    }
  }

  lemma SettledKeeps(init: Drive, s: Sys, st: Stage) returns (st': Stage)
    requires At(init, s, st) && Enabled(s, DiskStep) && (st == Rest || st == Asked)
    ensures At(init, Next(s, DiskStep), st')
  {
    hide Replay, FileWrite, FileRead, Offset, AllComplete, Apply;
    var t := Step(s.v);
    st' := if t.pc.GoClear? then Clearing else st;
  }

  lemma TakeUpKeeps(init: Drive, s: Sys, st: Stage) returns (st': Stage)
    requires At(init, s, st) && Enabled(s, DiskStep) && (st == Clearing || st == Setting)
    ensures At(init, Next(s, DiskStep), st')
  {
    hide Replay, FileWrite, FileRead, Offset;
    if st == Clearing {
      st' := Setting;
    } else {
      st' := if s.cmd == Fill then FillWait else SectorWait;
      assert s.v.d.buffer[..0] == [];
    }
  }

  lemma FillKeeps(init: Drive, s: Sys, st: Stage) returns (st': Stage)
    requires At(init, s, st) && Enabled(s, DiskStep) && Filling(st)
    ensures At(init, Next(s, DiskStep), st')
  {
    hide Replay, FileWrite, FileRead, Offset, Pending;
    var d := s.v.d;
    match st {
      case FillWait => st' := st;
      case FillTake =>
        st' := if s.v.pc.FillStore? then FillNext else st;
        if s.v.pc.FillStore? {
          assert d.buffer[d.index := s.sent[d.index]][..d.index + 1] == s.sent;
        }
      case FillNext =>
        st' := if d.index == SECTOR_SIZE then Rest else FillWait;
        assert d.index == SECTOR_SIZE ==> d.buffer == s.sent;
    }
  }

  lemma SectorKeeps(init: Drive, s: Sys, st: Stage) returns (st': Stage)
    requires At(init, s, st) && Enabled(s, DiskStep)
    requires st == SectorWait || st == SectorTake || st == SectorNext
    ensures At(init, Next(s, DiskStep), st')
  {
    hide Replay, FileWrite, FileRead, Offset, AllComplete, Apply, Complete, Settled, Pending, Held;
    match st {
      case SectorWait => st' := st;
      case SectorTake => st' := SectorTakeKeeps(init, s);
      case SectorNext => st' := TrackWait;
    }
  }

  lemma SectorTakeKeeps(init: Drive, s: Sys) returns (st': Stage)
    requires At(init, s, SectorTake) && Enabled(s, DiskStep)
    ensures At(init, Next(s, DiskStep), st')
  {
    hide Replay, FileWrite, FileRead, Offset, AllComplete, Apply, Complete, Settled, Pending, Held;
    st' := if s.v.pc.SecRead? then SectorNext else SectorTake;
  }

  lemma TrackKeeps(init: Drive, s: Sys, st: Stage) returns (st': Stage)
    requires At(init, s, st) && Enabled(s, DiskStep) && (st == TrackWait || st == TrackTake)
    ensures At(init, Next(s, DiskStep), st')
  {
    hide Replay, FileWrite, FileRead, Offset, AllComplete, Apply, Complete, Settled, Pending, Held;
    st' := if s.v.pc == TrkRead then Moving else st;
  }

  lemma TransferKeeps(init: Drive, s: Sys)
    requires At(init, s, Moving) && Enabled(s, DiskStep) && s.v.pc == Transfer
    ensures At(init, Next(s, DiskStep), Rest)
  {
    hide Replay, FileWrite, FileRead, Offset, Pending;
  }

  lemma MovingKeeps(init: Drive, s: Sys, st: Stage) returns (st': Stage)
    requires At(init, s, st) && Enabled(s, DiskStep) && st == Moving
    ensures At(init, Next(s, DiskStep), st')
  {
    hide Replay, FileWrite, FileRead, Offset, Pending, AllComplete, Apply, Complete, Settled, Held;
    if s.v.pc == Transfer {
      st' := Rest;
      TransferKeeps(init, s);
    } else {
      st' := st;
    }
  }

  lemma NextKeeps(init: Drive, s: Sys, e: Event)
    requires Inv(init, s) && Enabled(s, e)
    ensures Inv(init, Next(s, e))
  {
    hide At, Next;
    var st :| At(init, s, st);
    var st': Stage;
    if e == Poll {
      st' := st;
      PollKeeps(init, s, st);
    } else if e != DiskStep {
      st' := HostKeeps(init, s, e, st);
    } else {
      match st {
        case Rest => st' := SettledKeeps(init, s, st);
        case Asked => st' := SettledKeeps(init, s, st);
        case Clearing => st' := TakeUpKeeps(init, s, st);
        case Setting => st' := TakeUpKeeps(init, s, st);
        case FillWait => st' := FillKeeps(init, s, st);
        case FillTake => st' := FillKeeps(init, s, st);
        case FillNext => st' := FillKeeps(init, s, st);
        case SectorWait => st' := SectorKeeps(init, s, st);
        case SectorTake => st' := SectorKeeps(init, s, st);
        case SectorNext => st' := SectorKeeps(init, s, st);
        case TrackWait => st' := TrackKeeps(init, s, st);
        case TrackTake => st' := TrackKeeps(init, s, st);
        case Moving => st' := MovingKeeps(init, s, st);
      }
    }
    assert At(init, Next(s, e), st');
  }

  lemma {:induction false} RunKeeps(init: Drive, s: Sys, es: seq<Event>, t: Sys)
    requires Inv(init, s) && IsRun(s, es, t)
    ensures Inv(init, t)
    decreases |es|
  {
    if es != [] {
      NextKeeps(init, s, es[0]);
      RunKeeps(init, Next(s, es[0]), es[1..], t);
    }
  }

  lemma Reached(s: Sys, es: seq<Event>, t: Sys) returns (st: Stage)
    requires Start(s) && IsRun(s, es, t)
    ensures At(Held(s.v.d), t, st)
  {
    assert At(Held(s.v.d), s, Rest);
    RunKeeps(Held(s.v.d), s, es, t);
    st :| At(Held(s.v.d), t, st);
  }

  // What holds in every run

  /** The fill handshake: while the controller fills, its buffer holds exactly the bytes the
      host has handed over, the last one possibly still to be fetched; and the host sees
      DONE only when all 128 have arrived, in order. */
  lemma FillHandshake(s: Sys, es: seq<Event>, t: Sys)
    requires Start(s) && IsRun(s, es, t) && t.host != Ready && t.cmd == Fill && t.taken == t.issued
    ensures t.v.d.state == S_FILL ==>
              t.v.d.index <= SECTOR_SIZE
              && (t.v.d.index == |t.sent| || t.v.d.index + 1 == |t.sent|)
              && t.v.d.buffer[..t.v.d.index] == t.sent[..t.v.d.index]
    ensures t.v.cells.cs & DONE != 0 ==> |t.sent| == SECTOR_SIZE && t.v.d.buffer == t.sent
  {
    var st := Reached(s, es, t);
    assert st == Rest ==> t.v.d.buffer == t.sent;
    FillStages(t, st);
  }

  lemma FillStages(t: Sys, st: Stage)
    requires StageAt(t, st) && CommandsAt(t, st) && t.host != Ready && t.cmd == Fill && t.taken == t.issued
    requires st == Rest ==> t.v.d.buffer == t.sent
    ensures st == Rest || Filling(st)
    ensures t.v.d.state == S_FILL ==>
              t.v.d.index <= SECTOR_SIZE
              && (t.v.d.index == |t.sent| || t.v.d.index + 1 == |t.sent|)
              && t.v.d.buffer[..t.v.d.index] == t.sent[..t.v.d.index]
    ensures t.v.cells.cs & DONE != 0 ==> st == Rest
  {
    assert st == FillWait || st == FillNext ==> t.sent[..t.v.d.index] == t.sent;
  }

  /** Commands are taken up in the order they were issued, each once and as issued; the
      host never reaches the end of a command the controller has not taken up. */
  lemma CommandsExactlyOnce(s: Sys, es: seq<Event>, t: Sys)
    requires Start(s) && IsRun(s, es, t)
    ensures t.taken == t.issued || t.issued == t.taken + [t.cmd]
    ensures t.host != AwaitXfer ==> t.taken == t.issued
    ensures t.host == Ready ==> t.taken == Commands(t.log)
  {
    var st := Reached(s, es, t);
    CommandStages(t, st);
    IssuedIs(s, es, t);
  }

  lemma CommandStages(t: Sys, st: Stage)
    requires StageAt(t, st) && CommandsAt(t, st)
    ensures t.host != AwaitXfer ==> t.taken == t.issued
  {
  }

  function Commands(log: seq<Entry>): seq<Cmd> {
    seq(|log|, i requires 0 <= i < |log| => log[i].cmd)
  }

  ghost predicate Issued(s: Sys) {
    s.issued == Commands(s.log) + if s.host == Ready then [] else [s.cmd]
  }

  lemma {:induction false} IssuedRun(s: Sys, es: seq<Event>, t: Sys)
    requires Issued(s) && IsRun(s, es, t)
    ensures Issued(t)
    decreases |es|
  {
    if es != [] {
      var u := Next(s, es[0]);
      assert Commands(s.log + [Entry(s.cmd, s.sent)]) == Commands(s.log) + [s.cmd];
      assert Commands(s.log) + [] == Commands(s.log);
      assert Issued(u);
      IssuedRun(u, es[1..], t);
    }
  }

  lemma IssuedIs(s: Sys, es: seq<Event>, t: Sys)
    requires Start(s) && IsRun(s, es, t)
    ensures t.host == Ready ==> t.issued == Commands(t.log)
  {
    IssuedRun(s, es, t);
    assert Commands(t.log) + [] == Commands(t.log);
  }

  /** Whenever the host is free to start a command, the drive is what the completed commands
      make of it one after the other: 128 bytes filled, blocks written, blocks read. */
  lemma RefinesAtomicDrive(s: Sys, es: seq<Event>, t: Sys)
    requires Start(s) && IsRun(s, es, t)
    ensures AllComplete(t.log)
    ensures t.host == Ready ==> Held(t.v.d) == Replay(Held(s.v.d), t.log)
  {
    var st := Reached(s, es, t);
    ReadyStages(t, st);
  }

  lemma ReadyStages(t: Sys, st: Stage)
    requires StageAt(t, st)
    ensures t.host == Ready ==> st == Rest
  {
  }

  /** The transfer request seen by a polling host is always for the byte it owes next, and
      at most 128 bytes (for a sector command: two) are ever asked for. */
  lemma NeverOverrun(s: Sys, es: seq<Event>, t: Sys)
    requires Start(s) && IsRun(s, es, t) && (t.host == Offered || t.host.Writing?)
    ensures |t.sent| < if t.cmd == Fill then SECTOR_SIZE else 2
    ensures t.cmd == Fill ==> t.v.d.index == |t.sent|
  {
    var st := Reached(s, es, t);
    OfferStages(t, st);
  }

  lemma OfferStages(t: Sys, st: Stage)
    requires StageAt(t, st) && (t.host == Offered || t.host.Writing?)
    ensures |t.sent| < if t.cmd == Fill then SECTOR_SIZE else 2
    ensures t.cmd == Fill ==> t.v.d.index == |t.sent|
  {
  }
}
