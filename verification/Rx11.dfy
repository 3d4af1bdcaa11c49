/** The RX11 floppy controller: its loop as steps, one step for every access to the two
    device registers it shares with the processor, and the object that takes them. */
module Rx11 {
  import opened Wrappers
  import opened MemoryDevice

  const SECTOR_SIZE: nat := 128
  const SECTORS: nat := 26
  const TRACKS: nat := 77
  const TRACK_BYTES: nat := 3328

  // Bits of the command and status register

  const GO: bv16 := 0x0001
  const FS: bv16 := 0x000E
  const DONE: bv16 := 0x0020
  const XFER: bv16 := 0x0080

  type Sector = s: seq<byte> | |s| == SECTOR_SIZE witness seq(SECTOR_SIZE, _ => ZERO)

  datatype Func = F_FILL | F_EMPTY | F_WRITE | F_READ | F_IDLE

  datatype State = S_BEGIN | S_SECTOR | S_TRACK | S_FILL | S_EMPTY | S_WRITE | S_READ | S_DONE

  /** The controller's own state.  `image` is the file on the drive, if there is one. */
  datatype Disk = Disk(buffer: Sector, index: nat, track: byte, sector: byte,
                       func: Func, state: State, image: Option<seq<byte>>)

  /** The two registers: command and status, and data. */
  datatype Cells = Cells(cs: bv16, db: byte)

  /** Between which accesses the controller's thread stands.  `f` and `r` are register
      values it has read earlier and may use again. */
  datatype Pc = Top | GoClear(r: bv16) | GoSet(r: bv16)
              | FillFlags | FillOr1(f: bv16) | FillRead(f: bv16) | FillStore(f: bv16, data: byte) | FillOr2(f: bv16)
              | EmptyFlags | EmptyOr1(f: bv16) | EmptyPut(f: bv16) | EmptyOr2(f: bv16)
              | SecFlags | SecRead(f: bv16) | SecOr(f: bv16) | TrkRead | Transfer
              | DoneOr(r: bv16)

  datatype View = View(d: Disk, pc: Pc, cells: Cells)

  // The drive

  function Offset(track: byte, sector: byte): nat {
    TRACK_BYTES * track + SECTOR_SIZE * sector
  }

  /** Writing a block into a file: bytes skipped beyond its end become zero. */
  function FileWrite(file: seq<byte>, off: nat, data: Sector): (r: seq<byte>) {
    seq(if |file| < off + SECTOR_SIZE then off + SECTOR_SIZE else |file|,
        i requires 0 <= i => if off <= i < off + SECTOR_SIZE then data[i - off]
                             else if i < |file| then file[i] else ZERO)
  }

  /** Reading a block from a file: bytes beyond its end are left as they were. */
  function FileRead(file: seq<byte>, off: nat, old_: Sector): (r: Sector) {
    seq(SECTOR_SIZE, i requires 0 <= i < SECTOR_SIZE => if off + i < |file| then file[off + i] else old_[i])
  }

  function WriteBlock(d: Disk): Disk {
    if d.image.None? then d else d.(image := Some(FileWrite(d.image.value, Offset(d.track, d.sector), d.buffer)))
  }

  function ReadBlock(d: Disk): Disk {
    if d.image.None? then d else d.(buffer := FileRead(d.image.value, Offset(d.track, d.sector), d.buffer))
  }

  // One step of the controller's thread

  /** The top of the loop, with the register value just read. */
  function Choose(v: View): View {
    var d := v.d;
    var r := v.cells.cs;
    if r & GO != 0 && (d.state == S_BEGIN || d.state == S_DONE) then v.(pc := GoClear(r))
    else if d.state == S_FILL && d.func == F_FILL then v.(pc := FillFlags)
    else if d.state == S_EMPTY && d.func == F_EMPTY then v.(pc := EmptyFlags)
    else if d.func == F_READ || d.func == F_WRITE then v.(pc := SecFlags)
    else if d.state == S_DONE then v.(d := d.(state := S_BEGIN), pc := DoneOr(r))
    else v
  }

  /** Taking up a command: the function code decides what the registers show next. */
  function Accept(v: View, r: bv16): View {
    var code := (r & FS) >> 1;
    var d := v.d;
    var t := v.(pc := Top);
    if code == 0 then t.(d := d.(state := S_FILL, func := F_FILL), cells := v.cells.(cs := XFER))
    else if code == 1 then t.(d := d.(state := S_EMPTY, func := F_EMPTY))
    else if code == 2 then t.(d := d.(state := S_SECTOR, func := F_WRITE), cells := v.cells.(cs := XFER))
    else if code == 3 then t.(d := d.(state := S_SECTOR, func := F_READ), cells := v.cells.(cs := XFER))
    else t
  }

  function Or(c: Cells, f: bv16): Cells { c.(cs := c.cs | f) }

  /** The flags that ask for the next byte, or report the end. */
  function Raise(index: nat, f: bv16): bv16 {
    if index != SECTOR_SIZE then f ^ XFER else f ^ DONE
  }

  function Step(v: View): View {
    var d := v.d;
    var c := v.cells;
    match v.pc
    case Top => Choose(v)
    case GoClear(r) => v.(pc := GoSet(r), cells := c.(cs := 0))
    case GoSet(r) => Accept(v, r)
    case FillFlags =>
      if d.index == SECTOR_SIZE then v.(pc := Top, d := d.(index := 0, state := S_DONE, func := F_IDLE))
      else if c.cs & XFER == 0 then v.(pc := FillOr1(c.cs)) else v.(pc := Top)
    case FillOr1(f) => v.(pc := FillRead(f), cells := Or(c, f))
    case FillRead(f) => v.(pc := FillStore(f, c.db))
    case FillStore(f, data) =>
      v.(pc := FillOr2(f),
         d := d.(buffer := if d.index < SECTOR_SIZE then d.buffer[d.index := data] else d.buffer, index := d.index + 1))
    case FillOr2(f) =>
      v.(pc := Top, cells := Or(c, Raise(d.index, f)))
    case EmptyFlags =>
      if d.index == SECTOR_SIZE then v.(pc := Top, d := d.(index := 0, state := S_DONE, func := F_IDLE))
      else if c.cs & XFER == 0 then v.(pc := EmptyOr1(c.cs)) else v.(pc := Top)
    case EmptyOr1(f) => v.(pc := EmptyPut(f), cells := Or(c, f))
    case EmptyPut(f) => v.(pc := EmptyOr2(f), cells := c.(db := d.index % 0x100), d := d.(index := d.index + 1))
    case EmptyOr2(f) =>
      v.(pc := Top, cells := Or(c, Raise(d.index, f)))
    case SecFlags =>
      if d.state == S_SECTOR && c.cs & XFER == 0 then v.(pc := SecRead(c.cs))
      else if d.state == S_TRACK && c.cs & XFER == 0 then v.(pc := TrkRead)
      else if (d.state == S_WRITE && d.func == F_WRITE) || (d.state == S_READ && d.func == F_READ) then
        v.(pc := Transfer)
      else v.(pc := Top)
    case SecRead(f) => v.(pc := SecOr(f), d := d.(sector := c.db, state := S_TRACK))
    case SecOr(f) => v.(pc := Top, cells := Or(c, f ^ XFER))
    case TrkRead => v.(pc := Top, d := d.(track := c.db, state := if d.func == F_WRITE then S_WRITE else S_READ))
    case Transfer =>
      var e := if d.func == F_WRITE then WriteBlock(d) else ReadBlock(d);
      v.(pc := Top, d := e.(state := S_DONE, func := F_IDLE, sector := 0, track := 0))
    case DoneOr(r) => v.(pc := Top, cells := Or(c, r | DONE))
  }

  /** Steps that write the status register hold the memory's write lock. */
  predicate NeedsLock(pc: Pc) {
    match pc
    case GoClear(_) => true
    case GoSet(_) => true
    case FillOr1(_) => true
    case FillOr2(_) => true
    case EmptyOr1(_) => true
    case EmptyPut(_) => true
    case EmptyOr2(_) => true
    case SecOr(_) => true
    case DoneOr(_) => true
    case _ => false
  }

  // A whole pass of the loop, undisturbed

  function FillPass(d: Disk, c: Cells): View {
    if d.index == SECTOR_SIZE then View(d.(index := 0, state := S_DONE, func := F_IDLE), Top, c)
    else if c.cs & XFER == 0 then
      View(d.(buffer := if d.index < SECTOR_SIZE then d.buffer[d.index := c.db] else d.buffer, index := d.index + 1),
           Top, Or(Or(c, c.cs), Raise(d.index + 1, c.cs)))
    else View(d, Top, c)
  }

  function EmptyPass(d: Disk, c: Cells): View {
    if d.index == SECTOR_SIZE then View(d.(index := 0, state := S_DONE, func := F_IDLE), Top, c)
    else if c.cs & XFER == 0 then
      View(d.(index := d.index + 1), Top,
           Or(Or(c, c.cs).(db := d.index % 0x100), Raise(d.index + 1, c.cs)))
    else View(d, Top, c)
  }

  function SectorPass(d: Disk, c: Cells): View {
    if d.state == S_SECTOR && c.cs & XFER == 0 then
      View(d.(sector := c.db, state := S_TRACK), Top, Or(c, c.cs ^ XFER))
    else if d.state == S_TRACK && c.cs & XFER == 0 then
      View(d.(track := c.db, state := if d.func == F_WRITE then S_WRITE else S_READ), Top, c)
    else if (d.state == S_WRITE && d.func == F_WRITE) || (d.state == S_READ && d.func == F_READ) then
      var e := if d.func == F_WRITE then WriteBlock(d) else ReadBlock(d);
      View(e.(state := S_DONE, func := F_IDLE, sector := 0, track := 0), Top, c)
    else View(d, Top, c)
  }

  function Pass(d: Disk, c: Cells): View {
    var v := Choose(View(d, Top, c));
    match v.pc
    case GoClear(r) => Accept(View(d, Top, c.(cs := 0)), r)
    case FillFlags => FillPass(d, c)
    case EmptyFlags => EmptyPass(d, c)
    case SecFlags => SectorPass(d, c)
    case DoneOr(r) => View(v.d, Top, Or(c, r | DONE))
    case _ => v
  }

  lemma FillPassMoves(d: Disk, c: Cells, e: Disk, b: Cells)
    requires d.index < SECTOR_SIZE && c.cs & XFER == 0
    requires e == d.(buffer := d.buffer[d.index := c.db], index := d.index + 1)
    requires b == Or(Or(c, c.cs), Raise(e.index, c.cs))
    ensures FillPass(d, c) == View(e, Top, b)
  {
  }

  lemma EmptyPassMoves(d: Disk, c: Cells, e: Disk, b: Cells)
    requires d.index != SECTOR_SIZE && c.cs & XFER == 0
    requires e == d.(index := d.index + 1)
    requires b == Or(Or(c, c.cs).(db := d.index % 0x100), Raise(e.index, c.cs))
    ensures EmptyPass(d, c) == View(e, Top, b)
  {
  }

  /** Consecutive steps from the first view to the last. */
  ghost predicate Steps(vs: seq<View>) {
    |vs| > 0 && forall k, m :: 0 <= k && m == k + 1 < |vs| ==> vs[m] == Step(vs[k])
  }

  lemma StepsExtend(vs: seq<View>, w: View)
    requires Steps(vs) && w == Step(vs[|vs| - 1])
    ensures Steps(vs + [w])
  {
  }

  lemma FillIsSteps(d: Disk, c: Cells, vs: seq<View>) returns (ws: seq<View>)
    requires Steps(vs) && vs[|vs| - 1] == View(d, FillFlags, c)
    ensures Steps(ws) && ws[0] == vs[0] && ws[|ws| - 1] == FillPass(d, c)
  {
    if d.index != SECTOR_SIZE && c.cs & XFER == 0 {
      var f := c.cs;
      ws := Extend(vs, View(d, FillOr1(f), c));
      ws := Extend(ws, View(d, FillRead(f), Or(c, f)));
      ws := Extend(ws, View(d, FillStore(f, c.db), Or(c, f)));
      ws := Extend(ws, Step(View(d, FillStore(f, c.db), Or(c, f))));
      ws := Extend(ws, FillPass(d, c));
    } else {
      ws := Extend(vs, FillPass(d, c));
    }
  }

  lemma Extend(vs: seq<View>, w: View) returns (ws: seq<View>)
    requires Steps(vs) && w == Step(vs[|vs| - 1])
    ensures Steps(ws) && ws[0] == vs[0] && ws[|ws| - 1] == w
  {
    ws := vs + [w];
    StepsExtend(vs, w);
  }

  lemma EmptyIsSteps(d: Disk, c: Cells, vs: seq<View>) returns (ws: seq<View>)
    requires Steps(vs) && vs[|vs| - 1] == View(d, EmptyFlags, c)
    ensures Steps(ws) && ws[0] == vs[0] && ws[|ws| - 1] == EmptyPass(d, c)
  {
    if d.index != SECTOR_SIZE && c.cs & XFER == 0 {
      var f := c.cs;
      ws := Extend(vs, View(d, EmptyOr1(f), c));
      ws := Extend(ws, View(d, EmptyPut(f), Or(c, f)));
      ws := Extend(ws, Step(View(d, EmptyPut(f), Or(c, f))));
      ws := Extend(ws, EmptyPass(d, c));
    } else {
      ws := Extend(vs, EmptyPass(d, c));
    }
  }

  lemma SectorSteps(d: Disk, c: Cells)
    requires d.state == S_SECTOR && c.cs & XFER == 0
    ensures var e := d.(sector := c.db, state := S_TRACK);
            && Step(View(d, SecFlags, c)) == View(d, SecRead(c.cs), c)
            && Step(View(d, SecRead(c.cs), c)) == View(e, SecOr(c.cs), c)
            && Step(View(e, SecOr(c.cs), c)) == SectorPass(d, c)
  {
  }

  lemma OtherSteps(d: Disk, c: Cells)
    requires !(d.state == S_SECTOR && c.cs & XFER == 0)
    ensures var v := Step(View(d, SecFlags, c));
            if v.pc == Top then v == SectorPass(d, c) else Step(v) == SectorPass(d, c)
  {
  }

  lemma SectorIsSteps(d: Disk, c: Cells, vs: seq<View>) returns (ws: seq<View>)
    requires Steps(vs) && vs[|vs| - 1] == View(d, SecFlags, c)
    ensures Steps(ws) && ws[0] == vs[0] && ws[|ws| - 1] == SectorPass(d, c)
  {
    hide Step, SectorPass;
    if d.state == S_SECTOR && c.cs & XFER == 0 {
      SectorSteps(d, c);
      ws := Extend(vs, View(d, SecRead(c.cs), c));
      ws := Extend(ws, View(d.(sector := c.db, state := S_TRACK), SecOr(c.cs), c));
      ws := Extend(ws, SectorPass(d, c));
    } else {
      OtherSteps(d, c);
      var v := Step(View(d, SecFlags, c));
      ws := Extend(vs, v);
      if v.pc != Top {
        ws := Extend(ws, SectorPass(d, c));
      }
    }
  }

  lemma AcceptIsSteps(d: Disk, c: Cells, w: View, vs: seq<View>) returns (ws: seq<View>)
    requires w == Choose(View(d, Top, c)) && w.pc.GoClear?
    requires Steps(vs) && vs[|vs| - 1] == w
    ensures Steps(ws) && ws[0] == vs[0] && ws[|ws| - 1] == Pass(d, c)
  {
    ws := Extend(vs, View(d, GoSet(w.pc.r), c.(cs := 0)));
    ws := Extend(ws, Accept(View(d, Top, c.(cs := 0)), w.pc.r));
  }

  lemma DoneIsSteps(w: View, vs: seq<View>) returns (ws: seq<View>)
    requires w.pc.DoneOr? && Steps(vs) && vs[|vs| - 1] == w
    ensures Steps(ws) && ws[0] == vs[0] && ws[|ws| - 1] == View(w.d, Top, Or(w.cells, w.pc.r | DONE))
  {
    ws := Extend(vs, View(w.d, Top, Or(w.cells, w.pc.r | DONE)));
  }

  lemma PassWithDone(d: Disk, c: Cells, w: View)
    requires w == Choose(View(d, Top, c)) && w.pc.DoneOr?
    ensures Pass(d, c) == View(w.d, Top, Or(w.cells, w.pc.r | DONE))
  {
  }

  /** A pass is a sequence of single steps. */
  lemma PassIsSteps(d: Disk, c: Cells) returns (ws: seq<View>)
    ensures Steps(ws) && ws[0] == View(d, Top, c) && ws[|ws| - 1] == Pass(d, c)
  {
    var w := Choose(View(d, Top, c));
    ws := Extend([View(d, Top, c)], w);
    if w.pc.GoClear? {
      ws := AcceptIsSteps(d, c, w, ws);
    } else if w.pc.DoneOr? {
      ws := DoneIsSteps(w, ws);
      PassWithDone(d, c, w);
    } else if w.pc != Top {
      ws := WorkIsSteps(d, c, w, ws);
    }
  }

  lemma WorkIsSteps(d: Disk, c: Cells, w: View, vs: seq<View>) returns (ws: seq<View>)
    requires w == Choose(View(d, Top, c)) && w.pc != Top && !w.pc.GoClear? && !w.pc.DoneOr?
    requires Steps(vs) && vs[|vs| - 1] == w
    ensures Steps(ws) && ws[0] == vs[0] && ws[|ws| - 1] == Pass(d, c)
  {
    if w.pc == FillFlags {
      ws := FillIsSteps(d, c, vs);
    } else if w.pc == EmptyFlags {
      ws := EmptyIsSteps(d, c, vs);
    } else {
      ws := SectorIsSteps(d, c, vs);
    }
  }

  /** The device registers as the memory subsystem offers them. */
  class Registers {
    var cs: bv16
    var db: byte

    constructor ()
      ensures View() == Cells(0, 0)
    {
      cs, db := 0, 0;
    }

    function View(): Cells
      reads this
    {
      Cells(cs, db)
    }

    method OrStatus(f: bv16)
      modifies this`cs
      ensures View() == Or(old(View()), f)
    {
      cs := cs | f;
    }

    /** Ask for the next byte, or report that the buffer has been dealt with. */
    method RaiseStatus(index: nat, flags: bv16)
      modifies this`cs
      ensures View() == Or(old(View()), Raise(index, flags))
    {
      if index != SECTOR_SIZE {
        OrStatus(flags ^ XFER);
      } else {
        OrStatus(flags ^ DONE);
      }
    }

    method WriteStatus(v: bv16)
      modifies this`cs
      ensures View() == old(View()).(cs := v)
    {
      cs := v;
    }

    /** The processor's byte write to the data register, side effect included: the
        transfer request is withdrawn and every other flag stays. */
    method HostWriteData(b: byte)
      modifies this
      ensures db == b && cs == old(cs) & !XFER
    {
      db := b;
      var flags := cs;
      if flags & XFER != 0 {
        flags := flags ^ XFER;
      }
      cs := flags;
    }
  }

  /** The controller as an object over the registers. */
  class Controller {
    const regs: Registers
    const buffer: array<byte>
    var index: nat
    var track: byte
    var sector: byte
    var func: Func
    var state: State
    var image: Option<seq<byte>>

    constructor (r: Registers, file: Option<seq<byte>>)
      ensures regs == r && fresh(buffer) && Valid()
      ensures State() == Disk(seq(SECTOR_SIZE, _ => ZERO), 0, 0, 0, F_IDLE, S_BEGIN, file)
    {
      regs := r;
      buffer := new byte[SECTOR_SIZE](_ => ZERO);
      index, track, sector, func, state, image := 0, 0, 0, F_IDLE, S_BEGIN, file;
      new;
      assert buffer[..] == seq(SECTOR_SIZE, _ => ZERO);
    }

    ghost predicate Valid()
      reads this
    {
      buffer.Length == SECTOR_SIZE && index <= SECTOR_SIZE
    }

    ghost function State(): Disk
      reads this, buffer
      requires Valid()
    {
      Disk(buffer[..], index, track, sector, func, state, image)
    }

    method FillBuffer()
      requires Valid()
      modifies this, buffer, regs
      ensures Valid()
      ensures View(State(), Top, regs.View()) == FillPass(old(State()), old(regs.View()))
    {
      ghost var d0, c0 := State(), regs.View();
      var flags := regs.cs;
      if index == SECTOR_SIZE {
        index := 0;
        state := S_DONE;
        func := F_IDLE;
        return;
      }
      if flags & XFER == 0 {
        regs.OrStatus(flags);
        var data := regs.db;
        buffer[index] := data;
        index := index + 1;
        regs.RaiseStatus(index, flags);
        FillPassMoves(d0, c0, State(), regs.View());
      }
    }

    method EmptyBuffer()
      requires Valid()
      modifies this, regs
      ensures Valid()
      ensures View(State(), Top, regs.View()) == EmptyPass(old(State()), old(regs.View()))
    {
      ghost var d0, c0 := State(), regs.View();
      var flags := regs.cs;
      if index == SECTOR_SIZE {
        index := 0;
        state := S_DONE;
        func := F_IDLE;
        return;
      }
      if flags & XFER == 0 {
        regs.OrStatus(flags);
        regs.db := index % 0x100;
        index := index + 1;
        regs.RaiseStatus(index, flags);
        EmptyPassMoves(d0, c0, State(), regs.View());
      }
    }

    method WriteSector()
      requires Valid() && func == F_WRITE
      modifies this, regs
      ensures Valid()
      ensures View(State(), Top, regs.View()) == SectorPass(old(State()), old(regs.View()))
    {
      var flags := regs.cs;
      if state == S_SECTOR && flags & XFER == 0 {
        sector := regs.db;
        state := S_TRACK;
        regs.OrStatus(flags ^ XFER);
      } else if state == S_TRACK && flags & XFER == 0 {
        track := regs.db;
        state := S_WRITE;
      } else if state == S_WRITE {
        if image.Some? {
          image := Some(FileWrite(image.value, Offset(track, sector), buffer[..]));
        }
        state, func, sector, track := S_DONE, F_IDLE, 0, 0;
      }
    }

    method ReadSector()
      requires Valid() && func == F_READ
      modifies this, buffer, regs
      ensures Valid()
      ensures View(State(), Top, regs.View()) == SectorPass(old(State()), old(regs.View()))
    {
      var flags := regs.cs;
      if state == S_SECTOR && flags & XFER == 0 {
        sector := regs.db;
        state := S_TRACK;
        regs.OrStatus(flags ^ XFER);
      } else if state == S_TRACK && flags & XFER == 0 {
        track := regs.db;
        state := S_READ;
      } else if state == S_READ {
        if image.Some? {
          var data := FileRead(image.value, Offset(track, sector), buffer[..]);
          forall i | 0 <= i < SECTOR_SIZE {
            buffer[i] := data[i];
          }
          assert buffer[..] == data;
        }
        state, func, sector, track := S_DONE, F_IDLE, 0, 0;
      }
    }

    /** One pass of the controller's loop with nothing in between. */
    method PassOnce()
      requires Valid()
      modifies this, buffer, regs
      ensures Valid()
      ensures View(State(), Top, regs.View()) == Pass(old(State()), old(regs.View()))
    {
      var r := regs.cs;
      if r & GO != 0 && (state == S_BEGIN || state == S_DONE) {
        regs.WriteStatus(0);
        var code := (r & FS) >> 1;
        if code == 0 {
          state, func := S_FILL, F_FILL;
          regs.WriteStatus(XFER);
        } else if code == 1 {
          state, func := S_EMPTY, F_EMPTY;
        } else if code == 2 {
          state, func := S_SECTOR, F_WRITE;
          regs.WriteStatus(XFER);
        } else if code == 3 {
          state, func := S_SECTOR, F_READ;
          regs.WriteStatus(XFER);
        }
      } else if state == S_FILL && func == F_FILL {
        FillBuffer();
      } else if state == S_EMPTY && func == F_EMPTY {
        EmptyBuffer();
      } else if func == F_READ {
        ReadSector();
      } else if func == F_WRITE {
        WriteSector();
      } else if state == S_DONE {
        state := S_BEGIN;
        regs.OrStatus(r | DONE);
      }
    }
  }
}
