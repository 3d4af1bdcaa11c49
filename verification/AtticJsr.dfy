/** Subroutine call and return in the older emulator: operand addressing, JSR and RTS, as
    functions of the memory that holds the registers, and as the handlers that compute them. */
module AtticJsr {
  import opened Wrappers
  import opened MemoryDevice
  import opened AtticMemory

  /** Memory, and the address the last operand addressing left behind. */
  datatype Machine = Machine(mem: Store, dest: word)

  datatype Loaded = Loaded(mem: Store, value: word)

  function Sum(a: word, b: word): word { (a + b) % 0x1_0000 }

  /** Reading a word; nothing is defined beyond the end of the array. */
  function Load(s: Store, loc: nat): Option<Loaded> {
    if loc + 1 < MEM_BYTES then Some(Loaded(AfterRead(s, loc), WordAt(s, loc))) else None
  }

  /** Reading the word the program counter points at, and stepping over it, in either order. */
  function LoadNext(s: Store): Option<Loaded> {
    match Load(s, GetR(s, R_PC))
    case None => None
    case Some(l) => Some(l.(mem := Bump(l.mem, Cell(R_PC), 2)))
  }

  function StepThenLoad(s: Store): Option<Loaded> { Load(Bump(s, Cell(R_PC), 2), GetR(s, R_PC)) }

  /** A chain of reads, each at an offset from the value of the one before. */
  function Follow(l: Option<Loaded>, offset: word): Option<Loaded> {
    match l
    case None => None
    case Some(v) => Load(v.mem, Sum(v.value, offset))
  }

  function PcMode(m: Machine, mode: nat): Option<Loaded> {
    var s := m.mem;
    match mode
    case 0 => Some(Loaded(s, Cell(R_PC)))
    case 2 => Some(Loaded(Bump(s, Cell(R_PC), 2), GetR(s, R_PC)))
    case 3 => Follow(Some(Loaded(Bump(s, Cell(R_PC), 2), GetR(s, R_PC))), 0)
    case 6 =>
      var l := LoadNext(s);
      if l.None? then None else Some(l.value.(value := Sum(GetR(l.value.mem, R_PC), l.value.value)))
    case _ => Some(Loaded(s, m.dest))
  }

  function SpMode(m: Machine, mode: nat): Option<Loaded> {
    var s := m.mem;
    match mode
    case 0 => Some(Loaded(s, Cell(R_SP)))
    case 1 => Some(Loaded(s, GetR(s, R_SP)))
    case 2 => Some(Loaded(Bump(s, Cell(R_SP), 2), GetR(s, R_SP)))
    case 3 =>
      var l := Load(s, GetR(s, R_SP));
      if l.None? then None else Some(l.value.(mem := Bump(l.value.mem, Cell(R_SP), 2)))
    case 4 =>
      var t := Bump(s, Cell(R_SP), -2);
      Some(Loaded(t, GetR(t, R_SP)))
    case 6 =>
      var l := StepThenLoad(s);
      if l.None? then None else Some(l.value.(value := Sum(GetR(l.value.mem, R_SP), l.value.value)))
    case 7 =>
      var l := StepThenLoad(s);
      if l.None? then None else Follow(l, GetR(l.value.mem, R_SP))
    case _ => Some(Loaded(s, m.dest))
  }

  function GeneralMode(m: Machine, mode: nat, reg: word): Option<Loaded> {
    var s := m.mem;
    match mode
    case 0 => Some(Loaded(s, Cell(reg)))
    case 1 => Some(Loaded(s, GetR(s, reg)))
    case 2 => Some(Loaded(Bump(s, Cell(reg), 2), GetR(s, reg)))
    case 3 =>
      var l := Load(s, GetR(s, reg));
      if l.None? then None
      else Follow(Some(l.value.(mem := Bump(l.value.mem, GetR(s, reg), 2))), 0)
    case 4 => Some(Loaded(Bump(s, Cell(reg), -2), GetR(s, reg)))
    case 5 =>
      var l := Follow(Load(s, GetR(s, reg)), 0);
      if l.None? then None else Some(l.value.(mem := Bump(l.value.mem, GetR(s, reg), -2)))
    case 6 =>
      var l := StepThenLoad(s);
      if l.None? then None else Follow(l, GetR(l.value.mem, reg))
    case 7 =>
      var l := StepThenLoad(s);
      if l.None? then None
      else
        var inner := Load(l.value.mem, GetR(l.value.mem, reg));
        Follow(inner, l.value.value)
    case _ => Some(Loaded(s, m.dest))
  }

  function Mode(ir: word): nat { ir / 8 % 8 }
  function Reg(ir: word): word { ir % 8 }
  function Link(ir: word): word { ir / 0x40 % 8 }

  /** The destination operand of an instruction: its address, and what addressing changed. */
  function Operand(m: Machine, ir: word): Option<Loaded> {
    if Reg(ir) == R_PC then PcMode(m, Mode(ir))
    else if Reg(ir) == R_SP then SpMode(m, Mode(ir))
    else GeneralMode(m, Mode(ir), Reg(ir))
  }

  predicate IsJsr(ir: word) { ir / 0x200 == 4 }

  predicate IsRts(ir: word) { ir / 0x40 == 2 }

  /** The linkage of a call once the target is known: the link register is stored at the
      stack pointer, which then moves down; the link takes the program counter. */
  function Linked(s: Store, link: word, target: word): Store
    requires GetR(s, R_SP) + 1 < MEM_BYTES
  {
    var t := Bump(StoreWord(s, GetR(s, R_SP), GetR(s, link)), Cell(R_SP), -2);
    SetR(SetR(t, link, GetR(t, R_PC)), R_PC, target)
  }

  function Jsr(m: Machine, ir: word): Option<Machine> {
    match Operand(m, ir)
    case None => None
    case Some(o) =>
      var target := Load(o.mem, o.value);
      if target.None? || GetR(target.value.mem, R_SP) + 1 >= MEM_BYTES then None
      else Some(Machine(Linked(target.value.mem, Link(ir), target.value.value), o.value))
  }

  function Rts(m: Machine, ir: word): Option<Machine> {
    var link := ir % 8;
    var s := Bump(SetR(m.mem, R_PC, GetR(m.mem, link)), Cell(R_SP), 2);
    match Load(s, GetR(s, R_SP))
    case None => None
    case Some(top) => Some(m.(mem := SetR(top.mem, link, top.value)))
  }

  /** The handlers, over the memory object. */
  class Processor {
    const memory: Memory
    var ir: word

    constructor (m: Memory)
      ensures memory == m
    {
      memory := m;
      ir := 0;
    }

    function State(): Machine
      reads this, memory, memory.cells
      requires memory.cells.Length == MEM_BYTES
    {
      Machine(memory.Contents(), memory.dest)
    }

    method SetupPcDest()
      requires memory.Valid() && PcMode(State(), Mode(ir)).Some?
      modifies memory`dest, memory.cells
      ensures PcMode(old(State()), Mode(ir)) == Some(Loaded(memory.Contents(), memory.dest))
    {
      hide AfterRead, AfterWrite, WordAt, PutWord;
      var mode := Mode(ir);
      if mode == 0 {
        memory.dest := Cell(R_PC);
      } else if mode == 2 {
        var pc := memory.ReadRegister(R_PC);
        memory.WordAdvanceR(R_PC);
        memory.dest := pc;
      } else if mode == 3 {
        var pc := memory.ReadRegister(R_PC);
        memory.WordAdvanceR(R_PC);
        var d := memory.DirectReadWord(pc);
        memory.dest := d;
      } else if mode == 6 {
        var pc := memory.ReadRegister(R_PC);
        var relative := memory.DirectReadWord(pc);
        memory.WordAdvanceR(R_PC);
        pc := memory.ReadRegister(R_PC);
        memory.dest := Sum(pc, relative);
      }
    }

    method SetupSpDest()
      requires memory.Valid() && SpMode(State(), Mode(ir)).Some?
      modifies memory`dest, memory.cells
      ensures SpMode(old(State()), Mode(ir)) == Some(Loaded(memory.Contents(), memory.dest))
    {
      hide AfterRead, AfterWrite, WordAt, PutWord;
      var mode := Mode(ir);
      if mode == 0 {
        memory.dest := Cell(R_SP);
      } else if mode == 1 {
        var a := memory.ReadRegister(R_SP);
        memory.dest := a;
      } else if mode == 2 {
        var a := memory.ReadRegister(R_SP);
        memory.dest := a;
        memory.WordAdvanceR(R_SP);
      } else if mode == 3 {
        var deferred := memory.ReadRegister(R_SP);
        var a := memory.DirectReadWord(deferred);
        memory.WordAdvanceR(R_SP);
        memory.dest := a;
      } else if mode == 4 {
        memory.WordDecreaseR(R_SP);
        var a := memory.ReadRegister(R_SP);
        memory.dest := a;
      } else if mode == 6 || mode == 7 {
        var pc := memory.ReadRegister(R_PC);
        memory.WordAdvanceR(R_PC);
        var index := memory.DirectReadWord(pc);
        var a := memory.ReadRegister(R_SP);
        a := Sum(a, index);
        if mode == 7 {
          a := memory.DirectReadWord(a);
        }
        memory.dest := a;
      }
    }

    method SetupGeneralDest()
      requires memory.Valid() && GeneralMode(State(), Mode(ir), Reg(ir)).Some?
      modifies memory`dest, memory.cells
      ensures GeneralMode(old(State()), Mode(ir), Reg(ir)) == Some(Loaded(memory.Contents(), memory.dest))
    {
      hide AfterRead, AfterWrite, WordAt, PutWord;
      var mode, reg := Mode(ir), Reg(ir);
      if mode == 0 {
        memory.dest := Cell(reg);
      } else if mode == 1 {
        var a := memory.ReadRegister(reg);
        memory.dest := a;
      } else if mode == 2 {
        var a := memory.ReadRegister(reg);
        memory.dest := a;
        memory.WordAdvanceR(reg);
      } else if mode == 3 {
        var deferred := memory.ReadRegister(reg);
        var index := memory.DirectReadWord(deferred);
        memory.WordInPlace(deferred, 2);
        var a := memory.DirectReadWord(index);
        memory.dest := a;
      } else if mode == 4 {
        var a := memory.ReadRegister(reg);
        memory.dest := a;
        memory.WordDecreaseR(reg);
      } else if mode == 5 {
        var deferred := memory.ReadRegister(reg);
        var index := memory.DirectReadWord(deferred);
        var a := memory.DirectReadWord(index);
        memory.dest := a;
        memory.WordInPlace(deferred, -2);
      } else {
        SetupGeneralIndexed();
      }
    }

    method SetupGeneralIndexed()
      requires memory.Valid() && Mode(ir) >= 6 && GeneralMode(State(), Mode(ir), Reg(ir)).Some?
      modifies memory`dest, memory.cells
      ensures GeneralMode(old(State()), Mode(ir), Reg(ir)) == Some(Loaded(memory.Contents(), memory.dest))
    {
      hide AfterRead, AfterWrite, WordAt, PutWord;
      var mode, reg := Mode(ir), Reg(ir);
      var pc := memory.ReadRegister(R_PC);
      memory.WordAdvanceR(R_PC);
      var index := memory.DirectReadWord(pc);
      var deferred := memory.ReadRegister(reg);
      if mode == 7 {
        deferred := memory.DirectReadWord(deferred);
      }
      var a := memory.DirectReadWord(Sum(deferred, index));
      memory.dest := a;
    }

    method SetupDest()
      requires memory.Valid() && Operand(State(), ir).Some?
      modifies memory`dest, memory.cells
      ensures Operand(old(State()), ir) == Some(Loaded(memory.Contents(), memory.dest))
    {
      var reg := Reg(ir);
      if reg == 7 {
        SetupPcDest();
      } else if reg == 6 {
        SetupSpDest();
      } else {
        SetupGeneralDest();
      }
    }

    method JSR()
      requires memory.Valid() && Jsr(State(), ir).Some?
      modifies memory`dest, memory.cells
      ensures Some(State()) == Jsr(old(State()), ir)
    {
      hide AfterRead, AfterWrite, WordAt, PutWord;
      var reg := Link(ir);
      SetupDest();
      var tmp := memory.DirectReadWord(memory.dest);
      var contents := memory.ReadRegister(reg);
      var sp := memory.ReadRegister(R_SP);
      memory.DirectWriteWord(sp, contents);
      memory.WordDecreaseR(R_SP);
      var pc := memory.ReadRegister(R_PC);
      memory.WriteRegister(reg, pc);
      memory.WriteRegister(R_PC, tmp);
    }

    method RTS()
      requires memory.Valid() && Rts(State(), ir).Some?
      modifies memory.cells
      ensures Some(State()) == Rts(old(State()), ir)
    {
      hide AfterRead, AfterWrite, WordAt, PutWord;
      var reg := Reg(ir);
      var contents := memory.ReadRegister(reg);
      memory.WriteRegister(R_PC, contents);
      memory.WordAdvanceR(R_SP);
      var sp := memory.ReadRegister(R_SP);
      var top := memory.DirectReadWord(sp);
      memory.WriteRegister(reg, top);
    }
  }
}
