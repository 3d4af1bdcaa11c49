/** The older emulator's memory: one array of bytes that also holds the nine processor
    registers and the device registers, some of which react to being read or written. */
module AtticMemory {
  import opened Wrappers
  import opened MemoryDevice

  const R_SP: word := 6
  const R_PC: word := 7

  /** The register cells: nine words from R0 on. */
  const R0: nat := 0x1F00
  const CELLS_END: nat := R0 + 18

  const TKS: nat := 0x1F40
  const TKB: nat := 0x1F42
  const TPS: nat := 0x1F44
  const TPB: nat := 0x1F46
  const RXCS: nat := 0xFE78
  const RXDB: nat := 0xFE7A

  /** The flag RXCS_XFER, and TPS_READY as well. */
  const FLAG: nat := 0x80

  const MAX_HANDLERS: nat := 20
  const INACTIVE: nat := 0xFFFF

  /** Where a register lives; any number from 8 on means the status word. */
  function Cell(r: word): nat {
    match r
    case 0 => R0
    case 1 => R0 + 2
    case 2 => R0 + 4
    case 3 => R0 + 6
    case 4 => R0 + 8
    case 5 => R0 + 10
    case 6 => R0 + 12
    case 7 => R0 + 14
    case _ => R0 + 16
  }

  function GetR(s: Store, r: word): word { WordAt(s, Cell(r)) }

  function SetR(s: Store, r: word, v: word): Store { PutWord(s, Cell(r), v) }

  /** Adding to a word in place, as 16-bit arithmetic. */
  function Bump(s: Store, loc: nat, delta: int): Store
    requires loc + 1 < MEM_BYTES
  {
    PutWord(s, loc, (WordAt(s, loc) + delta) % 0x1_0000)
  }

  // Side effects

  datatype Handler = ClearRXDB | ClearRXCS | ReadTKB | ClearTPB

  function Flagged(w: word): bool { w / FLAG % 2 == 1 }
  function With(w: word): word { if Flagged(w) then w else w + FLAG }
  function Without(w: word): word { if Flagged(w) then w - FLAG else w }

  function OnRead(loc: nat): Option<Handler> {
    if loc == RXDB then Some(ClearRXDB) else if loc == TKB then Some(ReadTKB)
    else if loc == TPB then Some(ClearTPB) else None
  }

  function OnWrite(loc: nat): Option<Handler> {
    if loc == RXDB then Some(ClearRXCS) else None
  }

  function EndTransfer(s: Store): Store { PutWord(s, RXCS, Without(WordAt(s, RXCS))) }

  function Handle(s: Store, h: Handler): Store {
    match h
    case ClearRXDB => EndTransfer(PutWord(s, RXDB, 0))
    case ClearRXCS => EndTransfer(s)
    case ReadTKB => PutWord(PutWord(s, TKB, 0), TKS, 0)
    case ClearTPB => PutWord(PutWord(s, TPB, 0), TPS, With(WordAt(s, TPS)))
  }

  function AfterRead(s: Store, loc: nat): Store {
    if OnRead(loc).Some? then Handle(s, OnRead(loc).value) else s
  }

  function AfterWrite(s: Store, loc: nat): Store {
    if OnWrite(loc).Some? then Handle(s, OnWrite(loc).value) else s
  }

  function StoreWord(s: Store, loc: nat, v: word): Store
    requires loc + 1 < MEM_BYTES
  {
    AfterWrite(PutWord(s, loc, v), loc)
  }

  function StoreByte(s: Store, loc: nat, b: byte): Store
    requires loc < MEM_BYTES
  {
    AfterWrite(PutByte(s, loc, b), loc)
  }

  /** The cells the devices own. */
  predicate DeviceCell(a: nat) { TKS <= a < TKS + 8 || RXCS <= a < RXCS + 4 }

  predicate RegisterCell(a: nat) { R0 <= a < CELLS_END }

  /** Reactions stay inside the device cells. */
  lemma EffectsStayInDevices(s: Store, loc: nat, a: nat)
    requires a < MEM_BYTES && !DeviceCell(a)
    ensures AfterRead(s, loc)[a] == s[a] && AfterWrite(s, loc)[a] == s[a]
  {
    HandlerStaysInDevices(s, ClearRXCS, a);
    if OnRead(loc).Some? {
      HandlerStaysInDevices(s, OnRead(loc).value, a);
    }
  }

  lemma HandlerStaysInDevices(s: Store, h: Handler, a: nat)
    requires a < MEM_BYTES && !DeviceCell(a)
    ensures Handle(s, h)[a] == s[a]
  {
  }

  // A table of handlers

  datatype Slot = Slot(loc: nat, handler: Option<Handler>)

  const UNUSED := Slot(INACTIVE, None)

  /** The first slot for a location. */
  function Lookup(t: seq<Slot>, loc: nat): Option<Slot> {
    if t == [] then None else if t[0].loc == loc then Some(t[0]) else Lookup(t[1..], loc)
  }

  lemma {:induction false} LookupFirst(t: seq<Slot>, loc: nat, i: nat)
    requires i < |t| && t[i].loc == loc && forall j :: 0 <= j < i ==> t[j].loc != loc
    ensures Lookup(t, loc) == Some(t[i])
  {
    if i > 0 {
      LookupFirst(t[1..], loc, i - 1);
    }
  }

  lemma {:induction false} LookupNone(t: seq<Slot>, loc: nat)
    requires forall j :: 0 <= j < |t| ==> t[j].loc != loc
    ensures Lookup(t, loc) == None
  {
    if t != [] {
      LookupNone(t[1..], loc);
    }
  }

  predicate Agrees(t: seq<Slot>, loc: nat, h: Option<Handler>) {
    match Lookup(t, loc)
    case None => h == None
    case Some(s) => h.Some? && s.handler == h
  }

  ghost predicate ReadTable(t: seq<Slot>) {
    forall loc: nat :: loc < MEM_BYTES ==> Agrees(t, loc, OnRead(loc))
  }

  ghost predicate WriteTable(t: seq<Slot>) {
    forall loc: nat :: loc < MEM_BYTES ==> Agrees(t, loc, OnWrite(loc))
  }

  function ReadRank(loc: nat): nat { if OnRead(loc).Some? then 1 else 0 }
  function WriteRank(loc: nat): nat { if OnWrite(loc).Some? then 1 else 0 }

  method RegisterEffect(t: array<Slot>, loc: nat, h: Handler) returns (ok: bool)
    modifies t
    ensures ok <==> exists i :: 0 <= i < t.Length && old(t[i].loc) == INACTIVE
    ensures ok ==> exists i :: 0 <= i < t.Length && old(t[i].loc) == INACTIVE
                               && (forall j :: 0 <= j < i ==> old(t[j].loc) != INACTIVE)
                               && t[..] == old(t[..])[i := Slot(loc, Some(h))]
    ensures !ok ==> t[..] == old(t[..])
  {
    for i := 0 to t.Length
      invariant forall j :: 0 <= j < i ==> t[j].loc != INACTIVE
      invariant t[..] == old(t[..])
    {
      if t[i].loc == INACTIVE {
        t[i] := Slot(loc, Some(h));
        return true;
      }
    }
    return false;
  }

  method FindEffect(t: array<Slot>, loc: nat) returns (r: Option<Slot>)
    ensures r == Lookup(t[..], loc)
  {
    for i := 0 to t.Length
      invariant forall j :: 0 <= j < i ==> t[j].loc != loc
    {
      if t[i].loc == loc {
        LookupFirst(t[..], loc, i);
        return Some(t[i]);
      }
    }
    LookupNone(t[..], loc);
    return None;
  }

  class Memory {
    const cells: array<byte>
    const readEffects: array<Slot>
    const writeEffects: array<Slot>
    var src: word
    var dest: word

    constructor ()
      ensures fresh(cells) && fresh(readEffects) && fresh(writeEffects)
      ensures cells.Length == MEM_BYTES && Contents() == seq(MEM_BYTES, _ => ZERO)
      ensures readEffects[..] == seq(MAX_HANDLERS, _ => UNUSED) && writeEffects[..] == seq(MAX_HANDLERS, _ => UNUSED)
      ensures cells as object !in {readEffects, writeEffects} && readEffects != writeEffects
    {
      cells := new byte[MEM_BYTES](_ => ZERO);
      readEffects := new Slot[MAX_HANDLERS](_ => UNUSED);
      writeEffects := new Slot[MAX_HANDLERS](_ => UNUSED);
      src, dest := 0, 0;
      new;
      assert Contents() == seq(MEM_BYTES, _ => ZERO);
      assert readEffects[..] == seq(MAX_HANDLERS, _ => UNUSED);
      assert writeEffects[..] == seq(MAX_HANDLERS, _ => UNUSED);
    }

    function Contents(): Store
      reads this, cells
      requires cells.Length == MEM_BYTES
    {
      cells[..]
    }

    ghost predicate Valid()
      reads this, readEffects, writeEffects
    {
      && cells.Length == MEM_BYTES
      && ReadTable(readEffects[..]) && WriteTable(writeEffects[..])
    }

    /** The start of the terminal and disk threads: all four handlers are installed, and the
        tables then find each of them and nothing else. */
    method InstallDevices()
      requires cells.Length == MEM_BYTES && readEffects != writeEffects
      requires readEffects[..] == seq(MAX_HANDLERS, _ => UNUSED) && writeEffects[..] == seq(MAX_HANDLERS, _ => UNUSED)
      modifies readEffects, writeEffects
      ensures Valid()
    {
      var ok := RegisterEffect(readEffects, TKB, ReadTKB);
      assert readEffects[0] == Slot(TKB, Some(ReadTKB)) && readEffects[1] == UNUSED;
      ok := RegisterEffect(readEffects, TPB, ClearTPB);
      assert readEffects[1] == Slot(TPB, Some(ClearTPB)) && readEffects[2] == UNUSED;
      ok := RegisterEffect(readEffects, RXDB, ClearRXDB);
      ok := RegisterEffect(writeEffects, RXDB, ClearRXCS);
      TablesReady(readEffects[..], writeEffects[..]);
    }

    // Accesses through an address, with and without their side effects

    method DirectReadWord(loc: nat) returns (w: word)
      requires Valid() && loc + 1 < MEM_BYTES
      modifies cells
      ensures w == WordAt(old(Contents()), loc) && Contents() == AfterRead(old(Contents()), loc)
      decreases ReadRank(loc), 3
    {
      w := cells[loc];
      w := w + 0x100 * cells[loc + 1] as int;
      ProcessRead(loc);
    }

    method DirectReadByte(loc: nat) returns (b: byte)
      requires Valid() && loc < MEM_BYTES
      modifies cells
      ensures b == old(Contents())[loc] && Contents() == AfterRead(old(Contents()), loc)
    {
      b := cells[loc];
      ProcessRead(loc);
    }

    method DirectWriteWordPlain(loc: nat, v: word)
      requires cells.Length == MEM_BYTES && loc + 1 < MEM_BYTES
      modifies cells
      ensures Contents() == PutWord(old(Contents()), loc, v)
    {
      cells[loc] := v % 0x100;
      cells[loc + 1] := v / 0x100;
    }

    method DirectWriteWord(loc: nat, v: word)
      requires Valid() && loc + 1 < MEM_BYTES
      modifies cells
      ensures Contents() == StoreWord(old(Contents()), loc, v)
      decreases WriteRank(loc), 3
    {
      DirectWriteWordPlain(loc, v);
      ProcessWrite(loc);
    }

    method DirectWriteByte(loc: nat, b: byte)
      requires Valid() && loc < MEM_BYTES
      modifies cells
      ensures Contents() == StoreByte(old(Contents()), loc, b)
    {
      cells[loc] := b;
      ProcessWrite(loc);
    }

    // Accesses through the operand registers of the memory

    method ReadWord() returns (w: word)
      requires Valid() && src + 1 < MEM_BYTES
      modifies cells
      ensures w == WordAt(old(Contents()), src) && Contents() == AfterRead(old(Contents()), src)
    {
      w := DirectReadWord(src);
    }

    method WriteWord(v: word)
      requires Valid() && dest + 1 < MEM_BYTES
      modifies cells
      ensures Contents() == StoreWord(old(Contents()), dest, v)
    {
      DirectWriteWordPlain(dest, v);
      ProcessWrite(dest);
    }

    method WriteByte(b: byte)
      requires Valid() && dest < MEM_BYTES
      modifies cells
      ensures Contents() == StoreByte(old(Contents()), dest, b)
    {
      DirectWriteByte(dest, b);
    }

    // Registers

    method WordInPlace(loc: nat, delta: int)
      requires cells.Length == MEM_BYTES && loc + 1 < MEM_BYTES
      modifies cells
      ensures Contents() == Bump(old(Contents()), loc, delta)
    {
      var val: int := cells[loc] as int + 0x100 * cells[loc + 1] as int;
      val := (val + delta) % 0x1_0000;
      DirectWriteWordPlain(loc, val);
    }

    method WordAdvanceR(r: word)
      requires cells.Length == MEM_BYTES
      modifies cells
      ensures Contents() == Bump(old(Contents()), Cell(r), 2)
    {
      WordInPlace(Cell(r), 2);
    }

    method ByteAdvanceR(r: word)
      requires cells.Length == MEM_BYTES
      modifies cells
      ensures Contents() == Bump(old(Contents()), Cell(r), 1)
    {
      WordInPlace(Cell(r), 1);
    }

    method WordDecreaseR(r: word)
      requires cells.Length == MEM_BYTES
      modifies cells
      ensures Contents() == Bump(old(Contents()), Cell(r), -2)
    {
      WordInPlace(Cell(r), -2);
    }

    method ByteDecreaseR(r: word)
      requires cells.Length == MEM_BYTES
      modifies cells
      ensures Contents() == Bump(old(Contents()), Cell(r), -1)
    {
      WordInPlace(Cell(r), -1);
    }

    method WriteRegister(r: word, v: word)
      requires cells.Length == MEM_BYTES
      modifies cells
      ensures Contents() == SetR(old(Contents()), r, v)
    {
      DirectWriteWordPlain(Cell(r), v);
    }

    method ReadRegister(r: word) returns (w: word)
      requires cells.Length == MEM_BYTES
      ensures w == GetR(Contents(), r)
    {
      var loc := Cell(r);
      w := cells[loc];
      w := w + 0x100 * cells[loc + 1] as int;
    }

    // Side effects, found in the tables

    method ProcessRead(loc: nat)
      requires Valid() && loc < MEM_BYTES
      modifies cells
      ensures Contents() == AfterRead(old(Contents()), loc)
      decreases ReadRank(loc), 2
    {
      var slot := FindEffect(readEffects, loc);
      assert Agrees(readEffects[..], loc, OnRead(loc));
      if slot.Some? {
        match slot.value.handler.value {
          case ClearRXDB => RunClearRXDB();
          case ReadTKB =>
            DirectWriteWord(TKB, 0);
            DirectWriteWord(TKS, 0);
          case ClearTPB =>
            var flags := DirectReadWord(TPS);
            DirectWriteWord(TPB, 0);
            DirectWriteWord(TPS, With(flags));
        }
      }
    }

    method ProcessWrite(loc: nat)
      requires Valid() && loc < MEM_BYTES
      modifies cells
      ensures Contents() == AfterWrite(old(Contents()), loc)
      decreases WriteRank(loc), 2
    {
      var slot := FindEffect(writeEffects, loc);
      assert Agrees(writeEffects[..], loc, OnWrite(loc));
      if slot.Some? {
        RunClearRXCS();
      }
    }

    method RunClearRXDB()
      requires Valid()
      modifies cells
      ensures Contents() == Handle(old(Contents()), ClearRXDB)
      decreases 1, 1
    {
      DirectWriteWordPlain(RXDB, 0);
      RunClearRXCS();
    }

    method RunClearRXCS()
      requires Valid()
      modifies cells
      ensures Contents() == Handle(old(Contents()), ClearRXCS)
      decreases 1, 0
    {
      var flags := DirectReadWord(RXCS);
      if Flagged(flags) {
        flags := flags - FLAG;
      }
      DirectWriteWordPlain(RXCS, flags);
    }
  }

  /** Tables filled in the order the devices start hold exactly the handlers wanted. */
  lemma TablesReady(r: seq<Slot>, w: seq<Slot>)
    requires |r| == MAX_HANDLERS && r[0] == Slot(TKB, Some(ReadTKB)) && r[1] == Slot(TPB, Some(ClearTPB))
    requires r[2] == Slot(RXDB, Some(ClearRXDB)) && forall i :: 3 <= i < MAX_HANDLERS ==> r[i] == UNUSED
    requires |w| == MAX_HANDLERS && w[0] == Slot(RXDB, Some(ClearRXCS))
    requires forall i :: 1 <= i < MAX_HANDLERS ==> w[i] == UNUSED
    ensures ReadTable(r) && WriteTable(w)
  {
    forall loc: nat | loc < MEM_BYTES ensures Agrees(r, loc, OnRead(loc)) && Agrees(w, loc, OnWrite(loc)) {
      if loc == TKB {
        LookupFirst(r, loc, 0);
      } else if loc == TPB {
        LookupFirst(r, loc, 1);
      } else if loc == RXDB {
        LookupFirst(r, loc, 2);
        LookupFirst(w, loc, 0);
      } else {
        LookupNone(r, loc);
      }
      if loc != RXDB {
        LookupNone(w, loc);
      }
    }
  }
}
