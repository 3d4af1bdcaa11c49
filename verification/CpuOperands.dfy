/** Where an operand of the newer processor is, mode by mode, and what MOV, DEC, BNE and HALT leave:
    on words of memory and registers alone. */
module CpuOperands {
  import opened Wrappers
  import opened MemoryDevice
  import opened Cpu
  import opened CountedLoop

  /** The bus address of a register. */
  function BusOf(reg: nat): nat { 0x3FFC0 + reg }

  function Put(c: State, reg: nat, w: word): State
    requires reg < 9
  {
    c.(r := c.r[reg := w])
  }

  function Raised(c: State, reg: nat): State
    requires reg < 9
  {
    Put(c, reg, (c.r[reg] as int + 2) % 0x1_0000)
  }

  function Lowered(c: State, reg: nat): State
    requires reg < 9
  {
    Put(c, reg, (c.r[reg] as int - 2) % 0x1_0000)
  }

  lemma LowWord(c: State, a: nat)
    requires a < LOW
    ensures FetchData(c, a) == Some(WordAt(c.ram, a))
    ensures forall w: word :: StoreData(c, a, w) == Some(c.(ram := PutWord(c.ram, a, w)))
  {
    OnlyLowMemoryAnswers(a);
  }

  // Addresses

  /** PC, #X, @#X and X; the other modes leave the operand where it was. */
  lemma PcOperand(c: State, mode: nat, loc: nat)
    requires mode in {3, 6} ==> c.r[PC] < LOW
    ensures var pc := c.r[PC];
            Address(c, mode, PC, loc) == match mode
              case 0 => Some(Operand(c, BusOf(7)))
              case 2 => Some(Operand(Raised(c, PC), pc))
              case 3 => Some(Operand(Raised(c, PC), WordAt(c.ram, pc)))
              case 6 => Some(Operand(Raised(c, PC), WordAt(c.ram, pc) + pc + 2))
              case _ => Some(Operand(c, loc))
  {
    if mode in {3, 6} {
      LowWord(c, c.r[PC]);
    }
  }

  /** SP, (SP), (SP)+, @(SP)+, -(SP), X(SP) and @X(SP). */
  lemma SpOperand(c: State, mode: nat, loc: nat)
    requires (mode in {6, 7} ==> c.r[PC] < LOW) && (mode == 3 ==> c.r[SP] < LOW)
    requires mode == 7 ==> c.r[SP] + WordAt(c.ram, c.r[PC]) < LOW
    ensures var sp := c.r[SP];
            Address(c, mode, SP, loc) == match mode
              case 0 => Some(Operand(c, BusOf(6)))
              case 1 => Some(Operand(c, sp))
              case 2 => Some(Operand(Raised(c, SP), sp))
              case 3 => Some(Operand(Raised(c, SP), WordAt(c.ram, sp)))
              case 4 => Some(Operand(Lowered(c, SP), (sp as int - 2) % 0x1_0000))
              case 6 => Some(Operand(Raised(c, PC), WordAt(c.ram, c.r[PC]) + sp))
              case 7 => Some(Operand(Raised(c, PC), WordAt(c.ram, WordAt(c.ram, c.r[PC]) + sp)))
              case _ => Some(Operand(c, loc))
  {
    if mode == 3 {
      LowWord(c, c.r[SP]);
    } else if mode in {6, 7} {
      LowWord(c, c.r[PC]);
      if mode == 7 {
        LowWord(Raised(c, PC), WordAt(c.ram, c.r[PC]) + c.r[SP]);
      }
    }
  }

  /** Rn, (Rn), (Rn)+ and -(Rn); the last names the word before the register moves. */
  lemma RegisterOperand(c: State, mode: nat, reg: nat, loc: nat)
    requires reg < SP && mode in {0, 1, 2, 4}
    ensures Address(c, mode, reg, loc) == match mode
              case 0 => Some(Operand(c, BusOf(reg)))
              case 1 => Some(Operand(c, c.r[reg]))
              case 2 => Some(Operand(Raised(c, reg), c.r[reg]))
              case _ => Some(Operand(Lowered(c, reg), c.r[reg]))
  {
  }

  /** @(Rn)+ and @-(Rn): both take one read more than their names say, and in the last it is the word
      the register points at that goes down. */
  lemma DeferredOperand(c: State, mode: nat, reg: nat, loc: nat)
    requires reg < SP && mode in {3, 5} && c.r[reg] < LOW && WordAt(c.ram, c.r[reg]) < LOW
    ensures var x := WordAt(c.ram, c.r[reg]);
            Address(c, mode, reg, loc) ==
              if mode == 3 then Some(Operand(Raised(c, reg), WordAt(c.ram, x)))
              else Some(Operand(c.(ram := PutWord(c.ram, c.r[reg], (x as int - 2) % 0x1_0000)), WordAt(c.ram, x)))
  {
    LowWord(c, c.r[reg]);
    LowWord(c, WordAt(c.ram, c.r[reg]));
    LowWord(Raised(c, reg), WordAt(c.ram, c.r[reg]));
  }

  /** X(Rn) and @X(Rn): both take one read more than their names say. */
  lemma IndexedOperand(c: State, mode: nat, reg: nat, loc: nat)
    requires reg < SP && mode in {6, 7} && c.r[PC] < LOW && (mode == 7 ==> c.r[reg] < LOW)
    requires WordAt(c.ram, c.r[PC]) + (if mode == 6 then c.r[reg] else WordAt(c.ram, c.r[reg])) < LOW
    ensures var base := if mode == 6 then c.r[reg] else WordAt(c.ram, c.r[reg]);
            Address(c, mode, reg, loc) ==
              Some(Operand(Raised(c, PC), WordAt(c.ram, WordAt(c.ram, c.r[PC]) + base)))
  {
    LowWord(c, c.r[PC]);
    if mode == 7 {
      LowWord(Raised(c, PC), c.r[reg]);
    }
    LowWord(Raised(c, PC), WordAt(c.ram, c.r[PC]) + if mode == 6 then c.r[reg] else WordAt(c.ram, c.r[reg]));
  }

  /** Each register has its own bus address, and no other address names one. */
  lemma RegisterAddresses(reg: nat, addr: nat)
    ensures reg < 9 ==> BusToRegister(RegisterToBus(reg)) == Some(reg)
    ensures RegisterToBus(reg) == if reg < 8 then 0x3FFC0 + reg else 0x3FFFE
    ensures BusToRegister(addr).Some? ==>
              BusToRegister(addr).value < 9 && RegisterToBus(BusToRegister(addr).value) == addr
  {
  }

  /** Of an address that is translated, bits 15 to 17 are set and the others stay. */
  lemma Translated(addr: nat)
    requires addr / 0x200 % 0x80 != 0
    ensures var t := Translate(addr);
            t % 0x8000 == addr % 0x8000 && t / 0x8000 % 8 == 7 && t / 0x4_0000 == addr / 0x4_0000
  {
    var h, l := addr / 0x4_0000, addr % 0x8000;
    assert Translate(addr) == 0x4_0000 * h + 0x3_8000 + l;
    assert Translate(addr) / 0x8000 == 8 * h + 7;
  }

  // Instructions

  /** Only MOV 01SSDD, DEC 0052DD, BNE 001XXX with an offset of 8 bits, and HALT 000000. */
  lemma OnlyTheseHaveResults(c: State)
    requires Exec(c).Some?
    ensures 0x1000 <= c.ir < 0x2000 || 0x0AC0 <= c.ir < 0x0B00 || 0x0200 <= c.ir < 0x0300 || c.ir == 0
  {
  }

  /** What is at an address: a register's value or a word of memory. */
  ghost predicate Holds(c: State, a: nat, w: word) {
    if BusOf(0) <= a < BusOf(8) then c.r[a - BusOf(0)] == w else a < LOW && WordAt(c.ram, a) == w
  }

  /** The state with a word put there, and zero and negative telling about it. */
  ghost predicate Delivered(c: State, e: State, a: nat, w: word) {
    && Holds(e, a, w)
    && (e.r[PSW] / ZERO_FLAG % 2 == 1 <==> w == 0) && (e.r[PSW] / NEGATIVE_FLAG % 2 == 1 <==> w >= 0x8000)
    && e.r[PSW] % 4 == c.r[PSW] % 4 && e.r[PSW] / 0x10 == c.r[PSW] / 0x10
    && (forall q :: 0 <= q < 8 && a != BusOf(q) ==> e.r[q] == c.r[q])
    && (forall k :: 0 <= k < MEM_BYTES && !(a <= k < a + 2) ==> e.ram[k] == c.ram[k])
    && e.halted == c.halted
  }

  lemma DeliverIs(c: State, a: nat, w: word)
    requires c.dest == a && (BusOf(0) <= a < BusOf(8) || a < LOW)
    ensures Deliver(c, w).Some? && Delivered(c, Deliver(c, w).value, a, w)
  {
    FlagsOf(c.r[PSW], w);
    hide Flags;
    if a < LOW {
      LowWord(c.(alu := w), a);
      PutWordReads(c.ram, a, w, a);
    }
  }

  lemma FetchIs(c: State, a: nat, w: word)
    requires Holds(c, a, w)
    ensures FetchData(c, a) == Some(w)
  {
    if a < LOW {
      LowWord(c, a);
    }
  }

  /** MOV: the operand of the source mode, then that of the destination mode, found in this order;
      the word that is then at the source is delivered to the destination. */
  lemma MoveDelivers(c: State, s: State, a: nat, d: State, b: nat, w: word) returns (e: State)
    requires c.ir / 0x1000 == 1
    requires Address(c, c.ir / 0x200 % 8, c.ir / 0x40 % 8, c.src) == Some(Operand(s, a))
    requires Address(s.(src := a), s.ir / 8 % 8, s.ir % 8, s.dest) == Some(Operand(d, b)) && s.ir == c.ir && d.src == a
    requires Holds(d, a, w) && (BusOf(0) <= b < BusOf(8) || b < LOW)
    ensures Exec(c) == Some(e) && Delivered(d, e, b, w)
  {
    hide Address, Deliver, Flags;
    FetchIs(d.(dest := b), a, w);
    DeliverIs(d.(dest := b), b, w);
    e := Deliver(d.(dest := b), w).value;
    assert c.ir / 0x100 != 2;
  }

  /** DEC: the word at the operand, one less, goes back there. */
  lemma DecrementDelivers(c: State, d: State, b: nat, w: word) returns (e: State)
    requires c.ir / 0x40 == 0x2B
    requires Address(c, c.ir / 8 % 8, c.ir % 8, c.dest) == Some(Operand(d, b)) && Holds(d, b, w)
    ensures Exec(c) == Some(e) && Delivered(d, e, b, (w as int - 1) % 0x1_0000)
  {
    hide Address, Deliver, Flags;
    FetchIs(d.(dest := b), b, w);
    DeliverIs(d.(dest := b), b, (w as int - 1) % 0x1_0000);
    e := Deliver(d.(dest := b), (w as int - 1) % 0x1_0000).value;
    assert c.ir / 0x100 != 2 && c.ir / 0x1000 != 1;
  }

  /** BNE on its instruction word: forward for an offset below 0200, else backward, in words from
      behind the instruction; it goes nowhere when zero is set. */
  lemma BranchGoes(c: State, b: nat)
    requires c.r[PC] < LOW && WordAt(c.ram, c.r[PC]) == 0x200 + b && b < 0x100
    ensures Step(c).Some?
    ensures var e := Step(c).value;
            && e.ram == c.ram && e.halted == c.halted
            && (forall q :: 0 <= q < 9 && q != PC ==> e.r[q] == c.r[q])
            && e.r[PC] == (if c.r[PSW] / ZERO_FLAG % 2 == 1 then c.r[PC] + 2
                           else if b < 0x80 then c.r[PC] + 2 + 2 * b
                           else (c.r[PC] + 2 + 2 * b - 0x200) % 0x1_0000)
  {
    LowWord(c, c.r[PC]);
  }

  /** HALT stops the loop for good. */
  lemma HaltStops(c: State, n: nat)
    requires c.r[PC] < LOW && WordAt(c.ram, c.r[PC]) == 0 && !c.halted && n > 0
    ensures Run(c, n) == Some(Raised(c, PC).(ir := 0, halted := true))
  {
    LowWord(c, c.r[PC]);
    var d := Raised(c, PC).(ir := 0, halted := true);
    assert Step(c) == Some(d);
    RunStops(d, n - 1);
  }

  // Runs

  lemma {:induction false} RunTwice(c: State, m: nat, d: State, n: nat)
    requires Run(c, m) == Some(d)
    ensures Run(c, m + n) == Run(d, n)
    decreases m
  {
    hide Step;
    if c.halted {
      RunStops(c, m + n);
      RunStops(c, n);
      RunStops(c, m);
    } else if m > 0 {
      RunGoesOn(c, m);
      RunTwice(Step(c).value, m - 1, d, n);
    }
  }

  /** The counted loop with HALT behind it: however long it is watched beyond its 3n instructions, it
      has filled its words and stands behind the HALT. */
  lemma LoopHalts(c: State, d: nat, k: word, n: nat, m: nat) returns (e: State)
    requires Looping(c, d, k, n) && m > 3 * n && d + CODE_BYTES < LOW && WordAt(c.ram, d + CODE_BYTES) == 0
    requires c.r[1] + 2 * n <= d + CODE_BYTES || d + CODE_BYTES + 2 <= c.r[1]
    ensures Run(c, m) == Some(e) && e.halted && e.r[PC] == d + CODE_BYTES + 2 && e.r[0] == 0
    ensures forall j :: 0 <= j < n ==> WordAt(e.ram, c.r[1] + 2 * j) == k
  {
    hide Step, Run;
    var f := FillsMemory(c, d, k, n);
    RunTwice(c, 3 * n, f, m - 3 * n);
    assert WordAt(f.ram, d + CODE_BYTES) == 0;
    HaltStops(f, m - 3 * n);
    e := Raised(f, PC).(ir := 0, halted := true);
  }

  /** The instruction word is fetched, and the program counter steps over it. */
  lemma Opens(c: State, w: word)
    requires c.r[PC] < LOW && WordAt(c.ram, c.r[PC]) == w
    ensures Step(c) == Exec(Raised(c, PC).(ir := w))
  {
    LowWord(c, c.r[PC]);
    hide Exec;
  }

  /** `MOV X,Rn` with X relative: the register gets the word that lies X behind both words of the
      instruction. */
  lemma RelativeMove(c: State, n: nat) returns (e: State)
    requires n < 6 && c.r[PC] + 2 < LOW && WordAt(c.ram, c.r[PC]) == 0x1DC0 + n
    requires c.r[PC] + 4 + WordAt(c.ram, c.r[PC] + 2) < LOW
    ensures Step(c) == Some(e) && e.r[PC] == c.r[PC] + 4 && e.ram == c.ram
    ensures e.r[n] == WordAt(c.ram, c.r[PC] + 4 + WordAt(c.ram, c.r[PC] + 2))
    ensures forall q :: 0 <= q < 7 && q != n ==> e.r[q] == c.r[q]
  {
    hide Exec, Step, Address, WordAt, FetchData;
    var pc, w := c.r[PC], 0x1DC0 + n;
    Opens(c, w);
    var f := Raised(c, PC).(ir := w);
    assert w / 0x1000 == 1 && w / 0x200 % 8 == 6 && w / 0x40 % 8 == 7 && w / 8 % 8 == 0 && w % 8 == n;
    PcOperand(f, 6, f.src);
    var s, a := Raised(f, PC), WordAt(c.ram, pc + 2) + pc + 4;
    RegisterOperand(s.(src := a), 0, n, s.dest);
    e := MoveDelivers(f, s, a, s.(src := a), BusOf(n), WordAt(c.ram, a));
    assert e.ram == c.ram;
  }

  /** Pushing a register and popping it into another, then HALT: after three instructions the word has
      moved, the stack pointer is back, and the processor has stopped. */
  lemma PushPop(c: State, n: nat, q: nat) returns (e: State)
    requires n < 6 && q < 6 && c.r[PC] + 4 < LOW && 2 <= c.r[SP] < LOW && !c.halted
    requires WordAt(c.ram, c.r[PC]) == 0x1026 + 0x40 * n && WordAt(c.ram, c.r[PC] + 2) == 0x1580 + q
    requires WordAt(c.ram, c.r[PC] + 4) == 0 && (c.r[SP] <= c.r[PC] || c.r[PC] + 8 <= c.r[SP])
    ensures Run(c, 3) == Some(e) && e.halted && e.r[q] == c.r[n] && e.r[SP] == c.r[SP]
    ensures forall p :: 0 <= p < 6 && p != q ==> e.r[p] == c.r[p]
  {
    var d := Pushes(c, n);
    assert WordAt(d.ram, d.r[PC]) == 0x1580 + q && WordAt(d.ram, d.r[PC] + 2) == 0;
    var f := Pops(d, q);
    assert WordAt(f.ram, f.r[PC]) == 0;
    HaltStops(f, 1);
    e := Raised(f, PC).(ir := 0, halted := true);
    hide Step;
    assert Run(d, 2) == Run(f, 1);
  }

  /** `MOV Rn,-(SP)`. */
  lemma Pushes(c: State, n: nat) returns (e: State)
    requires n < 6 && c.r[PC] < LOW && 2 <= c.r[SP] < LOW && WordAt(c.ram, c.r[PC]) == 0x1026 + 0x40 * n
    ensures Step(c) == Some(e) && e.r[PC] == c.r[PC] + 2 && e.r[SP] == c.r[SP] - 2 && e.halted == c.halted
    ensures WordAt(e.ram, e.r[SP]) == c.r[n] && forall p :: 0 <= p < 6 ==> e.r[p] == c.r[p]
    ensures forall k :: 0 <= k < MEM_BYTES && !(c.r[SP] - 2 <= k < c.r[SP]) ==> e.ram[k] == c.ram[k]
  {
    hide Exec, Step, Address, WordAt, FetchData;
    var w := 0x1026 + 0x40 * n;
    Opens(c, w);
    var f := Raised(c, PC).(ir := w);
    assert w / 0x1000 == 1 && w / 0x200 % 8 == 0 && w / 0x40 % 8 == n && w / 8 % 8 == 4 && w % 8 == 6;
    RegisterOperand(f, 0, n, f.src);
    var s := f.(src := BusOf(n));
    SpOperand(s, 4, s.dest);
    e := MoveDelivers(f, f, BusOf(n), Lowered(s, SP), c.r[SP] - 2, c.r[n]);
  }

  /** `MOV (SP)+,Rq`. */
  lemma Pops(c: State, q: nat) returns (e: State)
    requires q < 6 && c.r[PC] < LOW && c.r[SP] < LOW && WordAt(c.ram, c.r[PC]) == 0x1580 + q
    ensures Step(c) == Some(e) && e.r[PC] == c.r[PC] + 2 && e.r[SP] == c.r[SP] + 2 && e.halted == c.halted
    ensures e.ram == c.ram && e.r[q] == WordAt(c.ram, c.r[SP])
    ensures forall p :: 0 <= p < 6 && p != q ==> e.r[p] == c.r[p]
  {
    hide Exec, Step, Address, WordAt, FetchData;
    var w := 0x1580 + q;
    Opens(c, w);
    var f := Raised(c, PC).(ir := w);
    assert w / 0x1000 == 1 && w / 0x200 % 8 == 2 && w / 0x40 % 8 == 6 && w / 8 % 8 == 0 && w % 8 == q;
    SpOperand(f, 2, f.src);
    var s := Raised(f, SP);
    RegisterOperand(s.(src := c.r[SP]), 0, q, s.dest);
    e := MoveDelivers(f, s, c.r[SP], s.(src := c.r[SP]), BusOf(q), WordAt(c.ram, c.r[SP]));
    assert e.ram == c.ram;
  }
}
