/** The registers inside main memory against a register file of their own. */
module RegisterFile {
  import opened Wrappers
  import opened MemoryDevice
  import opened AtticMemory

  const REGISTERS: nat := 9

  type File = f: seq<word> | |f| == REGISTERS witness seq(REGISTERS, _ => 0)

  function Index(r: word): nat { if r < 8 then r else 8 }

  /** The register file that the byte array holds. */
  function Registers(s: Store): File { seq(REGISTERS, i requires 0 <= i < REGISTERS => WordAt(s, R0 + 2 * i)) }

  /** What the processor and the devices do to the array: register operations, writes to an
      operand in a register, accesses by address, and whatever a device does to its cells. */
  datatype Op = Get(r: word)
              | Set(r: word, v: word)
              | Advance(r: word, delta: int)
              | PutOperand(r: word, v: word)
              | PutByteOperand(r: word, b: byte)
              | FetchWord(loc: nat)
              | FetchByte(loc: nat)
              | PutWordAt(loc: nat, v: word)
              | PutByteAt(loc: nat, b: byte)
              | Device(after: Store)

  predicate Clear(loc: nat, bytes: nat) { loc + bytes <= R0 || CELLS_END <= loc }

  /** A word access meets the register cells either as one whole register or not at all. */
  predicate WholeWord(loc: nat) {
    loc + 1 < MEM_BYTES && (Clear(loc, 2) || (R0 <= loc < CELLS_END && (loc - R0) % 2 == 0))
  }

  ghost predicate DeviceOnly(s: Store, t: Store) {
    forall a :: 0 <= a < MEM_BYTES && !DeviceCell(a) ==> t[a] == s[a]
  }

  ghost predicate Allowed(s: Store, op: Op) {
    match op
    case Advance(_, delta) => delta in {1, 2, -1, -2}
    case FetchWord(loc) => WholeWord(loc)
    case FetchByte(loc) => loc < MEM_BYTES
    case PutWordAt(loc, _) => WholeWord(loc)
    case PutByteAt(loc, _) => loc < MEM_BYTES && Clear(loc, 1)
    case Device(after) => DeviceOnly(s, after)
    case _ => true
  }

  ghost function Perform(s: Store, op: Op): Store
    requires Allowed(s, op)
  {
    match op
    case Get(_) => s
    case Set(r, v) => SetR(s, r, v)
    case Advance(r, delta) => Bump(s, Cell(r), delta)
    case PutOperand(r, v) => StoreWord(s, Cell(r), v)
    case PutByteOperand(r, b) => StoreByte(s, Cell(r), b)
    case FetchWord(loc) => AfterRead(s, loc)
    case FetchByte(loc) => AfterRead(s, loc)
    case PutWordAt(loc, v) => StoreWord(s, loc, v)
    case PutByteAt(loc, b) => StoreByte(s, loc, b)
    case Device(after) => after
  }

  /** The same operations on nine independent 16-bit registers. */
  function Act(f: File, op: Op): File {
    match op
    case Set(r, v) => f[Index(r) := v]
    case Advance(r, delta) => f[Index(r) := (f[Index(r)] + delta) % 0x1_0000]
    case PutOperand(r, v) => f[Index(r) := v]
    case PutByteOperand(r, b) => f[Index(r) := f[Index(r)] / 0x100 * 0x100 + b]
    case PutWordAt(loc, v) => if R0 <= loc < CELLS_END then f[(loc - R0) / 2 := v] else f
    case _ => f
  }

  ghost predicate AllAllowed(s: Store, ops: seq<Op>)
    decreases |ops|
  {
    ops == [] || (Allowed(s, ops[0]) && AllAllowed(Perform(s, ops[0]), ops[1..]))
  }

  ghost function PerformAll(s: Store, ops: seq<Op>): Store
    requires AllAllowed(s, ops)
    decreases |ops|
  {
    if ops == [] then s else PerformAll(Perform(s, ops[0]), ops[1..])
  }

  function ActAll(f: File, ops: seq<Op>): File
    decreases |ops|
  {
    if ops == [] then f else ActAll(Act(f, ops[0]), ops[1..])
  }

  lemma CellIs(r: word)
    ensures Cell(r) == R0 + 2 * Index(r) && Index(r) < REGISTERS
  {
  }

  /** A word stored at a register's cell changes that register and no other. */
  lemma PutWordIsSet(s: Store, i: nat, v: word)
    requires i < REGISTERS
    ensures Registers(PutWord(s, R0 + 2 * i, v)) == Registers(s)[i := v]
  {
    var f, g := Registers(PutWord(s, R0 + 2 * i, v)), Registers(s)[i := v];
    forall k | 0 <= k < REGISTERS ensures f[k] == g[k] {
      PutWordReads(s, R0 + 2 * i, v, R0 + 2 * k);
    }
  }

  lemma SameCellsSameRegisters(s: Store, t: Store)
    requires forall a :: R0 <= a < CELLS_END ==> t[a] == s[a]
    ensures Registers(t) == Registers(s)
  {
    forall k | 0 <= k < REGISTERS ensures Registers(t)[k] == Registers(s)[k] {
      assert t[R0 + 2 * k] == s[R0 + 2 * k] && t[R0 + 2 * k + 1] == s[R0 + 2 * k + 1];
    }
  }

  lemma EffectsKeepRegisters(s: Store, loc: nat)
    ensures Registers(AfterRead(s, loc)) == Registers(s) && Registers(AfterWrite(s, loc)) == Registers(s)
  {
    forall a | R0 <= a < CELLS_END ensures AfterRead(s, loc)[a] == s[a] && AfterWrite(s, loc)[a] == s[a] {
      EffectsStayInDevices(s, loc, a);
    }
    SameCellsSameRegisters(s, AfterRead(s, loc));
    SameCellsSameRegisters(s, AfterWrite(s, loc));
  }

  lemma LowByte(s: Store, r: word, b: byte)
    ensures PutByte(s, Cell(r), b) == PutWord(s, Cell(r), GetR(s, r) / 0x100 * 0x100 + b)
  {
    var v := GetR(s, r) / 0x100 * 0x100 + b;
    assert v % 0x100 == b && v / 0x100 == s[Cell(r) + 1];
  }

  lemma RegisterOpRefines(s: Store, op: Op)
    requires op.Set? || op.Advance? || op.PutOperand? || op.PutByteOperand?
    requires Allowed(s, op)
    ensures Registers(Perform(s, op)) == Act(Registers(s), op)
  {
    hide Cell, WordAt;
    CellIs(op.r);
    var i := Index(op.r);
    match op {
      case Set(r, v) => PutWordIsSet(s, i, v);
      case Advance(r, delta) => PutWordIsSet(s, i, (GetR(s, r) + delta) % 0x1_0000);
      case PutOperand(r, v) => PutWordIsSet(s, i, v);
      case PutByteOperand(r, b) =>
        LowByte(s, r, b);
        PutWordIsSet(s, i, GetR(s, r) / 0x100 * 0x100 + b);
    }
  }

  lemma OpRefines(s: Store, op: Op)
    requires Allowed(s, op)
    ensures Registers(Perform(s, op)) == Act(Registers(s), op)
  {
    match op {
      case Get(_) =>
      case Set(_, _) => RegisterOpRefines(s, op);
      case Advance(_, _) => RegisterOpRefines(s, op);
      case PutOperand(_, _) => RegisterOpRefines(s, op);
      case PutByteOperand(_, _) => RegisterOpRefines(s, op);
      case FetchWord(loc) => EffectsKeepRegisters(s, loc);
      case FetchByte(loc) => EffectsKeepRegisters(s, loc);
      case PutWordAt(loc, v) =>
        EffectsKeepRegisters(PutWord(s, loc, v), loc);
        if R0 <= loc < CELLS_END {
          PutWordIsSet(s, (loc - R0) / 2, v);
        } else {
          SameCellsSameRegisters(s, PutWord(s, loc, v));
        }
      case PutByteAt(loc, b) =>
        EffectsKeepRegisters(PutByte(s, loc, b), loc);
        SameCellsSameRegisters(s, PutByte(s, loc, b));
      case Device(after) => SameCellsSameRegisters(s, after);
    }
  }

  /** Any sequence of register operations, register operands, accesses by address that do not
      cut a register in two, and device activity, leaves in the register cells what the same
      sequence leaves in nine separate registers. */
  lemma {:induction false} RefinesRegisterFile(s: Store, ops: seq<Op>, r: word)
    requires AllAllowed(s, ops)
    ensures Registers(PerformAll(s, ops)) == ActAll(Registers(s), ops)
    ensures GetR(PerformAll(s, ops), r) == ActAll(Registers(s), ops)[Index(r)]
    decreases |ops|
  {
    if ops == [] {
      CellIs(r);
    } else {
      OpRefines(s, ops[0]);
      RefinesRegisterFile(Perform(s, ops[0]), ops[1..], r);
    }
  }

  predicate Names(op: Op, i: nat) {
    match op
    case Set(r, _) => Index(r) == i
    case Advance(r, _) => Index(r) == i
    case PutOperand(r, _) => Index(r) == i
    case PutByteOperand(r, _) => Index(r) == i
    case PutWordAt(loc, _) => R0 <= loc < CELLS_END && (loc - R0) / 2 == i
    case _ => false
  }

  /** A register that no operation names keeps its value, and a register set once and not
      named again is read back, however much else happens in between. */
  lemma {:induction false} UnnamedKept(s: Store, ops: seq<Op>, r: word)
    requires AllAllowed(s, ops) && forall k :: 0 <= k < |ops| ==> !Names(ops[k], Index(r))
    ensures GetR(PerformAll(s, ops), r) == GetR(s, r)
    decreases |ops|
  {
    if ops != [] {
      CellIs(r);
      OpRefines(s, ops[0]);
      var t := Perform(s, ops[0]);
      assert GetR(s, r) == Registers(s)[Index(r)] && GetR(t, r) == Registers(t)[Index(r)];
      UnnamedKept(t, ops[1..], r);
    }
  }

  predicate RegisterOp(op: Op) { op.Get? || op.Set? || op.Advance? || op.PutOperand? || op.PutByteOperand? }

  /** Register operations and register operands leave every other byte of memory alone. */
  lemma {:induction false} MemoryKept(s: Store, ops: seq<Op>, a: nat)
    requires AllAllowed(s, ops) && forall k :: 0 <= k < |ops| ==> RegisterOp(ops[k])
    requires a < MEM_BYTES && !RegisterCell(a)
    ensures PerformAll(s, ops)[a] == s[a]
    decreases |ops|
  {
    if ops != [] {
      CellIs(ops[0].r);
      assert RegisterOp(ops[0]);
      assert OnWrite(Cell(ops[0].r)) == None;
      MemoryKept(Perform(s, ops[0]), ops[1..], a);
    }
  }
}
