/** The processor: its fetch, decode and execute loop for MOV, DEC, BNE and HALT with every
    operand mode, over the memory that the data bus offers. */
module Cpu {
  import opened Wrappers
  import opened MemoryDevice

  const SP: nat := 6
  const PC: nat := 7
  const PSW: nat := 8

  const ZERO_FLAG: nat := 4
  const NEGATIVE_FLAG: nat := 8

  type Registers = r: seq<word> | |r| == 9 witness seq(9, _ => 0)

  /** r0 to r5, sp, pc and psw, in that order, and the rest of the processor's state. */
  datatype State = State(r: Registers, alu: word, ir: word, src: nat, dest: nat, halted: bool, ram: Store)

  function Plus(w: word, delta: int): word { (w as int + delta) % 0x1_0000 }

  function Inc(c: State, reg: nat): State
    requires reg < 9
  {
    c.(r := c.r[reg := Plus(c.r[reg], 2)])
  }

  function Dec(c: State, reg: nat): State
    requires reg < 9
  {
    c.(r := c.r[reg := Plus(c.r[reg], -2)])
  }

  // Addresses

  /** The bus address of a register, and back. */
  const REGISTER_ADDRESS: nat := 0x3FFC0
  const PSW_ADDRESS: nat := 0x3FFFE

  function RegisterToBus(reg: nat): nat { if reg < 8 then REGISTER_ADDRESS + reg else PSW_ADDRESS }

  function BusToRegister(addr: nat): Option<nat> {
    if REGISTER_ADDRESS <= addr < REGISTER_ADDRESS + 8 then Some(addr - REGISTER_ADDRESS)
    else if addr == PSW_ADDRESS then Some(PSW)
    else None
  }

  /** Addresses with any of bits 9 to 15 set get bits 15 to 17 as well. */
  function Translate(addr: nat): nat {
    if addr / 0x200 % 0x80 == 0 then addr else addr / 0x4_0000 * 0x4_0000 + 0x3_8000 + addr % 0x8000
  }

  predicate Answered(addr: nat) { Translate(addr) < MEM_BYTES }

  /** The memory answers exactly the first 512 addresses; any other access never returns. */
  lemma OnlyLowMemoryAnswers(addr: nat)
    ensures Answered(addr) <==> addr < 0x200
    ensures addr < 0x200 ==> Translate(addr) == addr
  {
    if addr >= 0x200 && addr / 0x200 % 0x80 == 0 {
      assert addr / 0x200 >= 1;
      assert addr / 0x200 >= 0x80;
    }
  }

  function FetchData(c: State, addr: nat): Option<word> {
    if BusToRegister(addr).Some? then Some(c.r[BusToRegister(addr).value])
    else if Translate(addr) + 1 < MEM_BYTES then Some(WordAt(c.ram, Translate(addr)))
    else None
  }

  function StoreData(c: State, addr: nat, w: word): Option<State> {
    if BusToRegister(addr).Some? then Some(c.(r := c.r[BusToRegister(addr).value := w]))
    else if Translate(addr) + 1 < MEM_BYTES then Some(c.(ram := PutWord(c.ram, Translate(addr), w)))
    else None
  }

  // Operands: the new state and the operand's address

  datatype Operand = Operand(c: State, loc: nat)

  /** An address fetched from memory, offset, after the given state. */
  function Fetched(c: State, w: Option<word>, offset: nat): Option<Operand> {
    if w.None? then None else Some(Operand(c, w.value + offset))
  }

  function PcAddress(c: State, mode: nat, loc: nat): Option<Operand> {
    match mode
    case 0 => Some(Operand(c, RegisterToBus(PC)))
    case 2 => Some(Operand(Inc(c, PC), c.r[PC]))
    case 3 => Fetched(Inc(c, PC), FetchData(c, c.r[PC]), 0)
    case 6 => Fetched(Inc(c, PC), FetchData(c, c.r[PC]), Inc(c, PC).r[PC])
    case _ => Some(Operand(c, loc))
  }

  function SpAddress(c: State, mode: nat, loc: nat): Option<Operand> {
    match mode
    case 0 => Some(Operand(c, RegisterToBus(SP)))
    case 1 => Some(Operand(c, c.r[SP]))
    case 2 => Some(Operand(Inc(c, SP), c.r[SP]))
    case 3 => Fetched(Inc(c, SP), FetchData(c, c.r[SP]), 0)
    case 4 => Some(Operand(Dec(c, SP), Dec(c, SP).r[SP]))
    case 6 => Fetched(Inc(c, PC), FetchData(c, c.r[PC]), c.r[SP])
    case 7 =>
      var index := FetchData(c, c.r[PC]);
      if index.None? then None else Fetched(Inc(c, PC), FetchData(Inc(c, PC), index.value + c.r[SP]), 0)
    case _ => Some(Operand(c, loc))
  }

  function GeneralAddress(c: State, mode: nat, reg: nat, loc: nat): Option<Operand>
    requires reg < SP
  {
    var at := c.r[reg];
    match mode
    case 0 => Some(Operand(c, RegisterToBus(reg)))
    case 1 => Some(Operand(c, at))
    case 2 => Some(Operand(Inc(c, reg), at))
    case 3 =>
      var index := FetchData(c, at);
      if index.None? then None else Fetched(Inc(c, reg), FetchData(Inc(c, reg), index.value), 0)
    case 4 => Some(Operand(Dec(c, reg), at))
    case 5 =>
      var index := FetchData(c, at);
      if index.None? then None
      else
        var target := FetchData(c, index.value);
        var stored := StoreData(c, at, Plus(index.value, -2));
        if target.None? || stored.None? then None else Some(Operand(stored.value, target.value))
    case 6 =>
      var index := FetchData(c, c.r[PC]);
      if index.None? then None else Fetched(Inc(c, PC), FetchData(Inc(c, PC), index.value + at), 0)
    case 7 =>
      var index := FetchData(c, c.r[PC]);
      if index.None? then None
      else
        var deferred := FetchData(Inc(c, PC), at);
        if deferred.None? then None
        else Fetched(Inc(c, PC), FetchData(Inc(c, PC), deferred.value + index.value), 0)
    case _ => Some(Operand(c, loc))
  }

  function Address(c: State, mode: nat, reg: nat, loc: nat): Option<Operand> {
    if reg == PC then PcAddress(c, mode, loc)
    else if reg == SP then SpAddress(c, mode, loc)
    else if reg < SP then GeneralAddress(c, mode, reg, loc)
    else None
  }

  function Source(c: State): Option<State> {
    var o := Address(c, c.ir / 0x200 % 8, c.ir / 0x40 % 8, c.src);
    if o.None? then None else Some(o.value.c.(src := o.value.loc))
  }

  function Destination(c: State): Option<State> {
    var o := Address(c, c.ir / 8 % 8, c.ir % 8, c.dest);
    if o.None? then None else Some(o.value.c.(dest := o.value.loc))
  }

  // Instructions

  function SetFlag(psw: word, flag: nat, on: bool): word
    requires flag == ZERO_FLAG || flag == NEGATIVE_FLAG
  {
    var was := psw / flag % 2 == 1;
    if on == was then psw else if on then psw + flag else psw - flag
  }

  function Flags(psw: word, w: word): word {
    SetFlag(SetFlag(psw, ZERO_FLAG, w == 0), NEGATIVE_FLAG, w >= 0x8000)
  }

  /** The result of an operation goes to the destination and decides the flags. */
  function Deliver(c: State, w: word): Option<State> {
    var s := StoreData(c.(alu := w), c.dest, w);
    if s.None? then None else Some(s.value.(r := s.value.r[PSW := Flags(s.value.r[PSW], w)]))
  }

  function Mov(c: State): Option<State> {
    match Source(c)
    case None => None
    case Some(s) =>
      match Destination(s)
      case None => None
      case Some(d) => if FetchData(d, d.src).None? then None else Deliver(d, FetchData(d, d.src).value)
  }

  function Decrement(c: State): Option<State> {
    match Destination(c)
    case None => None
    case Some(d) => if FetchData(d, d.dest).None? then None else Deliver(d, Plus(FetchData(d, d.dest).value, -1))
  }

  function BranchOffset(ir: word): int { if ir % 0x100 < 0x80 then ir % 0x100 else ir % 0x100 - 0x100 }

  function BranchNotEqual(c: State): State {
    var zero: word := if c.r[PSW] / ZERO_FLAG % 2 == 1 then ZERO_FLAG else 0;
    if zero != 0 then c.(alu := zero)
    else c.(alu := 0, r := c.r[PC := Plus(c.r[PC], 2 * BranchOffset(c.ir))])
  }

  /** The instructions modelled; the others have no result here. */
  function Exec(c: State): Option<State> {
    if c.ir / 0x100 == 2 then Some(BranchNotEqual(c))
    else if c.ir / 0x1000 == 1 then Mov(c)
    else if c.ir / 0x40 == 0x2B then Decrement(c)
    else if c.ir == 0 then Some(c.(halted := true))
    else None
  }

  function Step(c: State): Option<State> {
    match FetchData(c, c.r[PC])
    case None => None
    case Some(w) => Exec(Inc(c.(ir := w), PC))
  }

  /** The first `n` passes of the loop, fewer if the processor halts on the way. */
  function Run(c: State, n: nat): Option<State>
    decreases n
  {
    if n == 0 || c.halted then Some(c)
    else
      match Step(c)
      case None => None
      case Some(d) => Run(d, n - 1)
  }

  lemma RunStops(c: State, n: nat)
    requires c.halted || n == 0
    ensures Run(c, n) == Some(c)
  {
  }

  lemma RunGoesOn(c: State, n: nat)
    requires !c.halted && n > 0 && Run(c, n).Some?
    ensures Step(c).Some? && Run(c, n) == Run(Step(c).value, n - 1)
  {
  }

  /** The same as an object whose methods change it. */
  class Processor {
    var regs: Registers
    var alu: word
    var ir: word
    var srcAddress: nat
    var destAddress: nat
    var halted: bool
    var ram: Store

    constructor (memory: Store)
      ensures View() == State(seq(9, _ => 0), 0, 0, 0, 0, false, memory)
    {
      regs, alu, ir, srcAddress, destAddress := seq(9, _ => 0), 0, 0, 0, 0;
      halted, ram := false, memory;
    }

    function View(): State
      reads this
    {
      State(regs, alu, ir, srcAddress, destAddress, halted, ram)
    }

    method IncRegister(reg: nat)
      requires reg < 9
      modifies this`regs
      ensures View() == Inc(old(View()), reg)
    {
      regs := regs[reg := Plus(regs[reg], 2)];
    }

    method DecRegister(reg: nat)
      requires reg < 9
      modifies this`regs
      ensures View() == Dec(old(View()), reg)
    {
      regs := regs[reg := Plus(regs[reg], -2)];
    }

    method Fetch(addr: nat) returns (w: word)
      requires FetchData(View(), addr).Some?
      ensures Some(w) == FetchData(View(), addr)
    {
      var reg := BusToRegister(addr);
      if reg.Some? {
        return regs[reg.value];
      }
      w := WordAt(ram, Translate(addr));
    }

    method Store(addr: nat, w: word)
      requires StoreData(View(), addr, w).Some?
      modifies this`regs, this`ram
      ensures Some(View()) == StoreData(old(View()), addr, w)
    {
      var reg := BusToRegister(addr);
      if reg.Some? {
        regs := regs[reg.value := w];
      } else {
        ram := PutWord(ram, Translate(addr), w);
      }
    }

    method SetupPcAddressing(mode: nat, loc: nat) returns (l: nat)
      requires PcAddress(View(), mode, loc).Some?
      modifies this`regs
      ensures PcAddress(old(View()), mode, loc) == Some(Operand(View(), l))
    {
      l := loc;
      if mode == 0 {
        l := RegisterToBus(PC);
      } else if mode == 2 {
        l := regs[PC];
        IncRegister(PC);
      } else if mode == 3 {
        l := Fetch(regs[PC]);
        IncRegister(PC);
      } else if mode == 6 {
        var relative: nat := Fetch(regs[PC]);
        IncRegister(PC);
        l := relative + regs[PC];
      }
    }

    method SetupSpAddressing(mode: nat, loc: nat) returns (l: nat)
      requires SpAddress(View(), mode, loc).Some?
      modifies this`regs
      ensures SpAddress(old(View()), mode, loc) == Some(Operand(View(), l))
    {
      l := loc;
      if mode == 0 {
        l := RegisterToBus(SP);
      } else if mode == 1 {
        l := regs[SP];
      } else if mode == 2 {
        l := regs[SP];
        IncRegister(SP);
      } else if mode == 3 {
        l := Fetch(regs[SP]);
        IncRegister(SP);
      } else if mode == 4 {
        DecRegister(SP);
        l := regs[SP];
      } else if mode == 6 || mode == 7 {
        var index: nat := Fetch(regs[PC]);
        IncRegister(PC);
        l := index + regs[SP];
        if mode == 7 {
          l := Fetch(l);
        }
      }
    }

    method SetupGeneralAddressing(mode: nat, reg: nat, loc: nat) returns (l: nat)
      requires reg < SP && GeneralAddress(View(), mode, reg, loc).Some?
      modifies this`regs, this`ram
      ensures GeneralAddress(old(View()), mode, reg, loc) == Some(Operand(View(), l))
    {
      l := loc;
      if mode == 0 {
        l := RegisterToBus(reg);
      } else if mode == 1 {
        l := regs[reg];
      } else if mode == 2 {
        l := regs[reg];
        IncRegister(reg);
      } else if mode == 3 {
        var index: nat := Fetch(regs[reg]);
        IncRegister(reg);
        l := Fetch(index);
      } else if mode == 4 {
        l := regs[reg];
        DecRegister(reg);
      } else if mode == 5 {
        var deferred := regs[reg];
        var index := Fetch(deferred);
        l := Fetch(index);
        Store(deferred, Plus(index, -2));
      } else if mode == 6 {
        var index: nat := Fetch(regs[PC]);
        IncRegister(PC);
        l := Fetch(index + regs[reg]);
      } else if mode == 7 {
        var index: nat := Fetch(regs[PC]);
        IncRegister(PC);
        var deferred: nat := Fetch(regs[reg]);
        l := Fetch(deferred + index);
      }
    }

    method SetupAddressing(mode: nat, reg: nat, loc: nat) returns (l: nat)
      requires Address(View(), mode, reg, loc).Some?
      modifies this`regs, this`ram
      ensures Address(old(View()), mode, reg, loc) == Some(Operand(View(), l))
    {
      if reg == PC {
        l := SetupPcAddressing(mode, loc);
      } else if reg == SP {
        l := SetupSpAddressing(mode, loc);
      } else {
        l := SetupGeneralAddressing(mode, reg, loc);
      }
    }

    method SetZeroFlag(w: word)
      modifies this`regs
      ensures regs == old(regs)[PSW := SetFlag(old(regs)[PSW], ZERO_FLAG, w == 0)]
    {
      var on := regs[PSW] / ZERO_FLAG % 2 == 1;
      if w == 0 {
        if !on {
          regs := regs[PSW := regs[PSW] + ZERO_FLAG];
        }
      } else if on {
        regs := regs[PSW := regs[PSW] - ZERO_FLAG];
      }
    }

    method SetNegativeFlag(w: word)
      modifies this`regs
      ensures regs == old(regs)[PSW := SetFlag(old(regs)[PSW], NEGATIVE_FLAG, w >= 0x8000)]
    {
      var on := regs[PSW] / NEGATIVE_FLAG % 2 == 1;
      if w / 0x8000 == 1 {
        if !on {
          regs := regs[PSW := regs[PSW] + NEGATIVE_FLAG];
        }
      } else if on {
        regs := regs[PSW := regs[PSW] - NEGATIVE_FLAG];
      }
    }

    method DeliverResult(w: word)
      requires Deliver(View(), w).Some?
      modifies this`alu, this`regs, this`ram
      ensures Some(View()) == Deliver(old(View()), w)
    {
      alu := w;
      Store(destAddress, alu);
      ghost var r := regs;
      SetZeroFlag(alu);
      SetNegativeFlag(alu);
      assert regs == r[PSW := Flags(r[PSW], w)];
    }

    method MOV()
      requires Mov(View()).Some?
      modifies this
      ensures Some(View()) == Mov(old(View()))
    {
      srcAddress := SetupAddressing(ir / 0x200 % 8, ir / 0x40 % 8, srcAddress);
      destAddress := SetupAddressing(ir / 8 % 8, ir % 8, destAddress);
      var w := Fetch(srcAddress);
      DeliverResult(w);
    }

    method DEC()
      requires Decrement(View()).Some?
      modifies this
      ensures Some(View()) == Decrement(old(View()))
    {
      destAddress := SetupAddressing(ir / 8 % 8, ir % 8, destAddress);
      var w := Fetch(destAddress);
      DeliverResult(Plus(w, -1));
    }

    method BNE()
      modifies this`alu, this`regs
      ensures View() == BranchNotEqual(old(View()))
    {
      var offset := BranchOffset(ir);
      alu := if regs[PSW] / ZERO_FLAG % 2 == 1 then ZERO_FLAG else 0;
      if alu == 0 {
        regs := regs[PC := Plus(regs[PC], 2 * offset)];
      }
    }

    method ExecInstruction()
      requires Exec(View()).Some?
      modifies this
      ensures Some(View()) == Exec(old(View()))
    {
      if ir / 0x100 == 2 {
        BNE();
      } else if ir / 0x1000 == 1 {
        MOV();
      } else if ir / 0x40 == 0x2B {
        DEC();
      } else {
        halted := true;
      }
    }

    method Pass()
      requires Step(View()).Some?
      modifies this
      ensures Some(View()) == Step(old(View()))
    {
      ir := Fetch(regs[PC]);
      IncRegister(PC);
      ExecInstruction();
    }

    /** The processor's loop, watched for `n` passes. */
    method Execute(n: nat)
      requires Run(View(), n).Some?
      modifies this
      ensures Some(View()) == Run(old(View()), n)
    {
      var left := n;
      ghost var goal := Run(View(), n);
      while !halted && left > 0
        invariant 0 <= left <= n && goal.Some? && Run(View(), left) == goal
      {
        RunGoesOn(View(), left);
        Pass();
        left := left - 1;
      }
      RunStops(View(), left);
    }
  }
}
