/** Where an operand of the older emulator is, mode by mode, and where JSR and RTS go: on words of
    memory and registers alone. */
module AtticOperands {
  import opened Wrappers
  import opened MemoryDevice
  import opened AtticMemory
  import opened AtticJsr
  import opened CallTrees

  /** A word that is memory and nothing else: reading it has no effect. */
  predicate Plain(loc: nat) {
    && loc + 1 < MEM_BYTES && !RegisterCell(loc) && !RegisterCell(loc + 1)
    && !DeviceCell(loc) && !DeviceCell(loc + 1)
  }

  /** Memory with a register two higher or lower. */
  function Up(s: Store, r: word): Store { SetR(s, r, (GetR(s, r) + 2) % 0x1_0000) }

  function Down(s: Store, r: word): Store { SetR(s, r, (GetR(s, r) - 2) % 0x1_0000) }

  lemma PlainRead(s: Store, loc: nat)
    requires Plain(loc)
    ensures AfterRead(s, loc) == s && Load(s, loc) == Some(Loaded(s, WordAt(s, loc)))
  {
  }

  lemma PlainKept(s: Store, loc: nat, r: word, v: word)
    requires Plain(loc)
    ensures WordAt(SetR(s, r, v), loc) == WordAt(s, loc)
  {
  }

  lemma OtherRegister(s: Store, r: word, v: word, q: word)
    requires r < 8 && q < 8
    ensures GetR(SetR(s, r, v), q) == if q == r then v else GetR(s, q)
  {
    SetGet(s, r, v, q);
  }

  // Instruction words

  /** JSR is 004RDD, its link register above its operand, and RTS 0002xR, whatever x is. */
  lemma Encodings(ir: word)
    ensures IsJsr(ir) <==> 0x800 <= ir < 0xA00
    ensures IsRts(ir) <==> 0x80 <= ir < 0xC0
  {
  }

  lemma JsrFields(link: word, mode: nat, reg: word)
    requires link < 8 && mode < 8 && reg < 8
    ensures var ir := 0x800 + 0x40 * link + 8 * mode + reg;
            IsJsr(ir) && Link(ir) == link && Mode(ir) == mode && Reg(ir) == reg
  {
  }

  // The program counter's modes

  /** PC itself, #X, @#X and X; the other modes leave the operand where it was. */
  lemma PcOperand(m: Machine, ir: word)
    requires Reg(ir) == R_PC && Plain(GetR(m.mem, R_PC))
    ensures var s, pc, x := m.mem, GetR(m.mem, R_PC), WordAt(m.mem, GetR(m.mem, R_PC));
            Operand(m, ir) == match Mode(ir)
              case 0 => Some(Loaded(s, 0x1F0E))
              case 2 => Some(Loaded(Up(s, R_PC), pc))
              case 3 => Some(Loaded(Up(s, R_PC), x))
              case 6 => Some(Loaded(Up(s, R_PC), (pc + 2 + x) % 0x1_0000))
              case _ => Some(Loaded(s, m.dest))
  {
    hide PutWord, WordAt;
    var s, pc := m.mem, GetR(m.mem, R_PC);
    PlainRead(s, pc);
    PlainRead(Up(s, R_PC), pc);
    PlainKept(s, pc, R_PC, (pc + 2) % 0x1_0000);
    OtherRegister(s, R_PC, (pc + 2) % 0x1_0000, R_PC);
    SumOnce(pc, 2, WordAt(s, pc));
  }

  lemma SumOnce(a: word, b: word, c: word)
    ensures ((a + b) % 0x1_0000 + c) % 0x1_0000 == (a + b + c) % 0x1_0000 && Sum(a, 0) == a
  {
  }

  // The stack pointer's modes

  /** SP, (SP), (SP)+, @(SP)+, -(SP), X(SP) and @X(SP). */
  lemma SpOperand(m: Machine, ir: word)
    requires Reg(ir) == R_SP && Plain(GetR(m.mem, R_PC)) && Plain(GetR(m.mem, R_SP))
    requires Mode(ir) == 7 ==> Plain((GetR(m.mem, R_SP) + WordAt(m.mem, GetR(m.mem, R_PC))) % 0x1_0000)
    ensures var s, sp, x := m.mem, GetR(m.mem, R_SP), WordAt(m.mem, GetR(m.mem, R_PC));
            Operand(m, ir) == match Mode(ir)
              case 0 => Some(Loaded(s, 0x1F0C))
              case 1 => Some(Loaded(s, sp))
              case 2 => Some(Loaded(Up(s, R_SP), sp))
              case 3 => Some(Loaded(Up(s, R_SP), WordAt(s, sp)))
              case 4 => Some(Loaded(Down(s, R_SP), (sp - 2) % 0x1_0000))
              case 6 => Some(Loaded(Up(s, R_PC), (sp + x) % 0x1_0000))
              case 7 => Some(Loaded(Up(s, R_PC), WordAt(s, (sp + x) % 0x1_0000)))
              case _ => Some(Loaded(s, m.dest))
  {
    hide PutWord, WordAt, PcMode, GeneralMode;
    var s, pc, sp := m.mem, GetR(m.mem, R_PC), GetR(m.mem, R_SP);
    PlainRead(s, sp);
    NextWord(s, R_SP);
    OtherRegister(s, R_SP, (sp - 2) % 0x1_0000, R_SP);
    if Mode(ir) == 7 {
      var a := (sp + WordAt(s, pc)) % 0x1_0000;
      PlainRead(Up(s, R_PC), a);
      PlainKept(s, a, R_PC, (pc + 2) % 0x1_0000);
    }
  }

  /** Stepping over the word behind the instruction and reading it. */
  lemma NextWord(s: Store, r: word)
    requires Plain(GetR(s, R_PC)) && r < 7
    ensures StepThenLoad(s) == Some(Loaded(Up(s, R_PC), WordAt(s, GetR(s, R_PC))))
    ensures GetR(Up(s, R_PC), r) == GetR(s, r)
  {
    hide PutWord, WordAt;
    var pc := GetR(s, R_PC);
    PlainRead(Up(s, R_PC), pc);
    PlainKept(s, pc, R_PC, (pc + 2) % 0x1_0000);
    OtherRegister(s, R_PC, (pc + 2) % 0x1_0000, r);
  }

  // The general registers' modes

  /** Rn, (Rn), (Rn)+ and -(Rn); the last names the word before the register moves. */
  lemma RegisterOperand(m: Machine, ir: word)
    requires Reg(ir) < R_SP && Mode(ir) in {0, 1, 2, 4}
    ensures var s, r := m.mem, Reg(ir);
            Operand(m, ir) == match Mode(ir)
              case 0 => Some(Loaded(s, 0x1F00 + 2 * r))
              case 1 => Some(Loaded(s, GetR(s, r)))
              case 2 => Some(Loaded(Up(s, r), GetR(s, r)))
              case _ => Some(Loaded(Down(s, r), GetR(s, r)))
  {
    hide PutWord, WordAt;
  }

  /** @(Rn)+ and @-(Rn): it is the word the register points at that moves by two, before or after
      the second read, and not the register. */
  lemma DeferredOperand(m: Machine, ir: word)
    requires Reg(ir) < R_SP && Mode(ir) in {3, 5} && Plain(GetR(m.mem, Reg(ir)))
    requires Plain(WordAt(m.mem, GetR(m.mem, Reg(ir))))
    ensures var s := m.mem;
            var at := GetR(s, Reg(ir));
            var x := WordAt(s, at);
            Operand(m, ir) ==
              if Mode(ir) == 3 then
                var t := PutWord(s, at, (x + 2) % 0x1_0000);
                Some(Loaded(t, WordAt(t, x)))
              else Some(Loaded(PutWord(s, at, (x - 2) % 0x1_0000), WordAt(s, x)))
  {
    hide PutWord, WordAt;
    var s, at := m.mem, GetR(m.mem, Reg(ir));
    var x := WordAt(s, at);
    PlainRead(s, at);
    PlainRead(s, x);
    PlainRead(PutWord(s, at, (x + 2) % 0x1_0000), x);
    SumOnce(x, 0, 0);
  }

  /** X(Rn) and @X(Rn): both take one read more than their names say. */
  lemma IndexedAddress(m: Machine, ir: word)
    requires Reg(ir) < R_SP && Mode(ir) >= 6 && Plain(GetR(m.mem, R_PC)) && Plain(GetR(m.mem, Reg(ir)))
    requires var base := if Mode(ir) == 6 then GetR(m.mem, Reg(ir)) else WordAt(m.mem, GetR(m.mem, Reg(ir)));
             Plain((base + WordAt(m.mem, GetR(m.mem, R_PC))) % 0x1_0000)
    ensures var s := m.mem;
            var base := if Mode(ir) == 6 then GetR(s, Reg(ir)) else WordAt(s, GetR(s, Reg(ir)));
            Operand(m, ir) == Some(Loaded(Up(s, R_PC), WordAt(s, (base + WordAt(s, GetR(s, R_PC))) % 0x1_0000)))
  {
    hide PutWord, WordAt, PcMode, SpMode;
    var s, pc, at := m.mem, GetR(m.mem, R_PC), GetR(m.mem, Reg(ir));
    var base := if Mode(ir) == 6 then at else WordAt(s, at);
    NextWord(s, Reg(ir));
    var t := Up(s, R_PC);
    PlainRead(t, at);
    PlainKept(s, at, R_PC, (pc + 2) % 0x1_0000);
    var a := (base + WordAt(s, pc)) % 0x1_0000;
    PlainRead(t, a);
    PlainKept(s, a, R_PC, (pc + 2) % 0x1_0000);
  }

  // Where calls go

  /** A pass of the loop up to its dispatch: the word at PC, and PC behind it. */
  lemma FetchIs(m: Machine)
    requires Plain(GetR(m.mem, R_PC))
    ensures Fetched(m) == Some(Loaded(Up(m.mem, R_PC), WordAt(m.mem, GetR(m.mem, R_PC))))
  {
    PlainRead(m.mem, GetR(m.mem, R_PC));
  }

  /** Once the operand is found at `a`: the old link is on the stack, the link is PC, and PC is the
      word at `a`. */
  lemma CallGoes(m: Machine, ir: word, t: Store, a: word)
    requires Operand(m, ir) == Some(Loaded(t, a)) && Plain(a) && StackWord(GetR(t, R_SP)) && Link(ir) != R_SP
    ensures Jsr(m, ir).Some?
    ensures var n := Jsr(m, ir).value.mem; var sp := GetR(t, R_SP);
            && GetR(n, R_PC) == WordAt(t, a) && GetR(n, R_SP) == sp - 2
            && (Link(ir) != R_PC ==> GetR(n, Link(ir)) == GetR(t, R_PC))
            && WordAt(n, sp) == GetR(t, Link(ir))
            && forall r: word :: r < R_SP && r != Link(ir) ==> GetR(n, r) == GetR(t, r)
  {
    hide PutWord, WordAt, PcMode, SpMode, GeneralMode, Linked;
    PlainRead(t, a);
    LinkedRegisters(t, Link(ir), WordAt(t, a), R_PC);
    LinkedRegisters(t, Link(ir), WordAt(t, a), R_SP);
    LinkedRegisters(t, Link(ir), WordAt(t, a), Link(ir));
    LinkedMemory(t, Link(ir), WordAt(t, a));
    forall r: word | r < R_SP && r != Link(ir)
      ensures GetR(Linked(t, Link(ir), WordAt(t, a)), r) == GetR(t, r)
    {
      LinkedRegisters(t, Link(ir), WordAt(t, a), r);
    }
  }

  /** The word `ir` is JSR link,X; with the offset `x` behind it, the operand is at `a`; all of this is
      plain memory. */
  predicate RelativeCallAt(s: Store, pc: nat, ir: word, x: word, a: nat) {
    && pc == GetR(s, R_PC) && Plain(pc) && Plain(pc + 2) && Plain(a) && StackWord(GetR(s, R_SP))
    && ir == WordAt(s, pc) && IsJsr(ir) && Mode(ir) == 6 && Reg(ir) == R_PC && Link(ir) != R_SP
    && x == WordAt(s, pc + 2) && a == (pc + 4 + x) % 0x1_0000
  }

  /** One pass of the loop makes a call. */
  predicate Calls(m: Machine, n: Machine) { AtJsr(m) && CallPass(m) == Some(n) }

  lemma RelativeAddress(m: Machine, pc: nat, ir: word, x: word, a: nat, t: Store, u: Store)
    requires RelativeCallAt(m.mem, pc, ir, x, a) && t == Up(m.mem, R_PC) && u == Up(t, R_PC)
    ensures Fetched(m) == Some(Loaded(t, ir))
    ensures Operand(m.(mem := t), ir) == Some(Loaded(u, a)) && WordAt(u, a) == WordAt(m.mem, a)
    ensures GetR(u, R_PC) == (pc + 4) % 0x1_0000 && GetR(u, R_SP) == GetR(m.mem, R_SP)
  {
    hide PutWord, WordAt, Operand, IsJsr, StackWord;
    var s := m.mem;
    FetchIs(m);
    OtherRegister(s, R_PC, pc + 2, R_PC);
    OtherRegister(s, R_PC, pc + 2, R_SP);
    PlainKept(s, pc + 2, R_PC, pc + 2);
    PcOperand(m.(mem := t), ir);
    OtherRegister(t, R_PC, (pc + 4) % 0x1_0000, R_PC);
    OtherRegister(t, R_PC, (pc + 4) % 0x1_0000, R_SP);
    PlainKept(s, a, R_PC, pc + 2);
    PlainKept(t, a, R_PC, (pc + 4) % 0x1_0000);
  }

  /** A relative call: the pass loads PC from the word that lies the offset behind the two words of
      the instruction. */
  lemma RelativeCall(m: Machine, pc: nat, ir: word, x: word, a: nat) returns (n: Machine)
    requires RelativeCallAt(m.mem, pc, ir, x, a)
    ensures Calls(m, n) && GetR(n.mem, R_PC) == WordAt(m.mem, a) && GetR(n.mem, R_SP) == GetR(m.mem, R_SP) - 2
    ensures Link(ir) != R_PC ==> GetR(n.mem, Link(ir)) == (pc + 4) % 0x1_0000
  {
    hide PutWord, WordAt, Jsr, Operand, IsJsr, StackWord, GetR, Up, Mode, RegisterCell, DeviceCell;
    var t := Up(m.mem, R_PC);
    var u := Up(t, R_PC);
    RelativeAddress(m, pc, ir, x, a, t, u);
    CallGoes(m.(mem := t), ir, u, a);
    n := CallPass(m).value;
  }

  /** A return: PC is the link, and the link is what the stack holds two bytes higher. */
  lemma ReturnGoes(m: Machine, ir: word)
    requires Reg(ir) != R_SP && GetR(m.mem, R_SP) < 0xFFFE && StackWord(GetR(m.mem, R_SP) + 2)
    ensures Rts(m, ir).Some?
    ensures var s, n := m.mem, Rts(m, ir).value.mem;
            && GetR(n, R_SP) == GetR(s, R_SP) + 2
            && GetR(n, Reg(ir)) == WordAt(s, GetR(s, R_SP) + 2)
            && (Reg(ir) != R_PC ==> GetR(n, R_PC) == GetR(s, Reg(ir)))
            && forall r: word :: r < R_SP && r != Reg(ir) ==> GetR(n, r) == GetR(s, r)
  {
    hide PutWord, AfterRead;
    var s, link := m.mem, Reg(ir);
    var top := GetR(s, R_SP) + 2;
    SetGet(s, R_PC, GetR(s, link), R_SP);
    var p := SetR(s, R_PC, GetR(s, link));
    SetGet(p, R_SP, top, R_SP);
    assert Bump(p, Cell(R_SP), 2) == SetR(p, R_SP, top);
    ReturnRegisters(m, ir, R_SP);
    ReturnRegisters(m, ir, link);
    ReturnRegisters(m, ir, R_PC);
    forall r: word | r < R_SP && r != link ensures GetR(Rts(m, ir).value.mem, r) == GetR(s, r) {
      ReturnRegisters(m, ir, r);
    }
  }
}
