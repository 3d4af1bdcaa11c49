/** Runs of the older emulator's loop through nested subroutines, as trees of calls. */
module CallTrees {
  import opened Wrappers
  import opened MemoryDevice
  import opened AtticMemory
  import opened AtticJsr
  import opened RegisterFile

  /** A pass of the loop up to the dispatch: the instruction at the program counter. */
  function Fetched(m: Machine): Option<Loaded> { LoadNext(m.mem) }

  predicate AtJsr(m: Machine) { Fetched(m).Some? && IsJsr(Fetched(m).value.value) }

  predicate AtRts(m: Machine, link: word) {
    Fetched(m).Some? && IsRts(Fetched(m).value.value) && Reg(Fetched(m).value.value) == link
  }

  function Ready(m: Machine): Machine
    requires Fetched(m).Some?
  {
    m.(mem := Fetched(m).value.mem)
  }

  function LinkAt(m: Machine): word
    requires AtJsr(m)
  {
    Link(Fetched(m).value.value)
  }

  /** The memory once a call has evaluated its operand: the state a caller gets back. */
  function Addressed(m: Machine): Option<Store>
    requires AtJsr(m)
  {
    match Operand(Ready(m), Fetched(m).value.value)
    case None => None
    case Some(o) => Some(o.mem)
  }

  function CallPass(m: Machine): Option<Machine>
    requires AtJsr(m)
  {
    Jsr(Ready(m), Fetched(m).value.value)
  }

  function ReturnPass(m: Machine): Option<Machine>
    requires Fetched(m).Some?
  {
    Rts(Ready(m), Fetched(m).value.value)
  }

  /** What happens between two passes: device cells change, and the terminal's polling
      leaves its own operand address. */
  ghost predicate Between(m: Machine, n: Machine) { DeviceOnly(m.mem, n.mem) }

  /** A place on the stack that is memory and nothing else. */
  predicate StackWord(sp: nat) {
    2 <= sp && sp + 1 < MEM_BYTES && Clear(sp, 2) && !DeviceCell(sp) && !DeviceCell(sp + 1)
  }

  ghost predicate Kept(s: Store, t: Store, from: nat) {
    forall a :: from <= a < MEM_BYTES && !RegisterCell(a) && !DeviceCell(a) ==> t[a] == s[a]
  }

  ghost predicate LinksKept(s: Store, t: Store, links: set<word>) {
    forall r :: r in links ==> GetR(t, r) == GetR(s, r)
  }

  /** What a subroutine owes its callers: the stack pointer, everything above it, and the
      link registers in use. */
  ghost predicate Frame(s: Store, t: Store, links: set<word>) {
    GetR(t, R_SP) == GetR(s, R_SP) && Kept(s, t, GetR(s, R_SP) + 2) && LinksKept(s, t, links)
  }

  /** A body is a sequence of other work and of calls.  Work stands for any number of passes
      and is known by the state it ends in; a call by the state its body starts in, its body,
      and the state after its return. */
  datatype Item = Work(after: Machine) | Call(entered: Machine, body: seq<Item>, left: Machine)

  function After(i: Item): Machine { if i.Work? then i.after else i.left }

  function End(m: Machine, items: seq<Item>): Machine {
    if items == [] then m else After(items[|items| - 1])
  }

  function Using(links: set<word>, link: word): set<word> { if link == R_PC then links else links + {link} }

  /** The item happens from `m` on, in a body whose callers rely on `links`. */
  ghost predicate Happens(m: Machine, i: Item, links: set<word>)
    decreases i
  {
    match i
    case Work(after) => Frame(m.mem, after.mem, links)
    case Call(entered, body, left) =>
      && AtJsr(m) && LinkAt(m) != R_SP && CallPass(m).Some? && Between(CallPass(m).value, entered)
      && Frame(m.mem, Addressed(m).value, links) && StackWord(GetR(m.mem, R_SP))
      && (var last := End(entered, body);
          && HappenAll(entered, body, Using(links, LinkAt(m)))
          && AtRts(last, LinkAt(m)) && ReturnPass(last).Some? && Between(ReturnPass(last).value, left))
  }

  ghost predicate HappenAll(m: Machine, items: seq<Item>, links: set<word>)
    decreases items
  {
    items == [] || (Happens(m, items[0], links) && HappenAll(After(items[0]), items[1..], links))
  }

  // Single writes and registers

  lemma SetGet(s: Store, r: word, v: word, q: word)
    ensures GetR(SetR(s, r, v), q) == if Index(q) == Index(r) then v else GetR(s, q)
  {
    CellIs(r);
    CellIs(q);
    PutWordReads(s, Cell(r), v, Cell(q));
  }

  lemma SetKeeps(s: Store, r: word, v: word, a: nat)
    requires a < MEM_BYTES && !RegisterCell(a)
    ensures SetR(s, r, v)[a] == s[a]
  {
    CellIs(r);
  }

  lemma SameBytesSameRegister(s: Store, t: Store, r: word)
    requires forall a :: R0 <= a < CELLS_END ==> t[a] == s[a]
    ensures GetR(t, r) == GetR(s, r)
  {
    CellIs(r);
    assert R0 <= Cell(r) && Cell(r) + 1 < CELLS_END;
    assert t[Cell(r)] == s[Cell(r)] && t[Cell(r) + 1] == s[Cell(r) + 1];
  }

  lemma DeviceKeepsRegister(s: Store, t: Store, r: word)
    requires DeviceOnly(s, t)
    ensures GetR(t, r) == GetR(s, r)
  {
    SameBytesSameRegister(s, t, r);
  }

  lemma ReadIsDeviceOnly(s: Store, loc: nat)
    ensures DeviceOnly(s, AfterRead(s, loc))
  {
    forall a | 0 <= a < MEM_BYTES && !DeviceCell(a) ensures AfterRead(s, loc)[a] == s[a] {
      EffectsStayInDevices(s, loc, a);
    }
  }

  /** A word stored on the stack is stored there and changes no register. */
  lemma Pushed(s: Store, sp: nat, v: word)
    requires StackWord(sp)
    ensures StoreWord(s, sp, v) == PutWord(s, sp, v) && WordAt(PutWord(s, sp, v), sp) == v
    ensures forall r: word :: GetR(PutWord(s, sp, v), r) == GetR(s, r)
  {
    PutWordReads(s, sp, v, sp);
    forall r: word ensures GetR(PutWord(s, sp, v), r) == GetR(s, r) {
      SameBytesSameRegister(s, PutWord(s, sp, v), r);
    }
  }

  // One call, one return

  lemma LinkedRegisters(s: Store, link: word, target: word, r: word)
    requires link < 8 && link != R_SP && StackWord(GetR(s, R_SP)) && r < 8
    ensures GetR(Linked(s, link, target), r) ==
            if r == R_SP then GetR(s, R_SP) - 2
            else if r == R_PC then target
            else if r == link then GetR(s, R_PC)
            else GetR(s, r)
  {
    hide PutWord, AfterRead, AfterWrite;
    var sp := GetR(s, R_SP);
    Pushed(s, sp, GetR(s, link));
    var p := PutWord(s, sp, GetR(s, link));
    var t := SetR(p, R_SP, sp - 2);
    assert t == Bump(p, Cell(R_SP), -2);
    SetGet(p, R_SP, sp - 2, r);
    SetGet(p, R_SP, sp - 2, R_PC);
    var u := SetR(t, link, GetR(t, R_PC));
    SetGet(t, link, GetR(t, R_PC), r);
    SetGet(u, R_PC, target, r);
  }

  lemma LinkedMemory(s: Store, link: word, target: word)
    requires link < 8 && StackWord(GetR(s, R_SP))
    ensures WordAt(Linked(s, link, target), GetR(s, R_SP)) == GetR(s, link)
    ensures Kept(s, Linked(s, link, target), GetR(s, R_SP) + 2)
  {
    var sp := GetR(s, R_SP);
    Pushed(s, sp, GetR(s, link));
    var p := PutWord(s, sp, GetR(s, link));
    forall a | 0 <= a < MEM_BYTES && !RegisterCell(a) ensures Linked(s, link, target)[a] == p[a] {
      var t := SetR(p, R_SP, sp - 2);
      SetKeeps(p, R_SP, sp - 2, a);
      SetKeeps(t, link, GetR(t, R_PC), a);
      SetKeeps(SetR(t, link, GetR(t, R_PC)), R_PC, target, a);
    }
  }

  /** The first half of a return: the program counter is set and the stack pointer moved. */
  function Popped(s: Store, link: word, top: word): Store {
    SetR(SetR(s, R_PC, GetR(s, link)), R_SP, top)
  }

  lemma PoppedRegisters(s: Store, link: word, top: word, r: word)
    requires r < 8
    ensures GetR(Popped(s, link, top), r) == if r == R_PC then GetR(s, link) else if r == R_SP then top else GetR(s, r)
  {
    hide PutWord, AfterRead, AfterWrite;
    var p := SetR(s, R_PC, GetR(s, link));
    SetGet(s, R_PC, GetR(s, link), r);
    SetGet(p, R_SP, top, r);
  }

  lemma PoppedMemory(s: Store, link: word, top: word, a: nat)
    requires a < MEM_BYTES && !RegisterCell(a)
    ensures Popped(s, link, top)[a] == s[a]
  {
    SetKeeps(s, R_PC, GetR(s, link), a);
    SetKeeps(SetR(s, R_PC, GetR(s, link)), R_SP, top, a);
  }

  lemma ReturnIs(m: Machine, ir: word)
    requires Rts(m, ir).Some? && GetR(m.mem, R_SP) < 0xFFFE
    ensures var top := GetR(m.mem, R_SP) + 2;
            var q := Popped(m.mem, Reg(ir), top);
            top + 1 < MEM_BYTES && Rts(m, ir).value.mem == SetR(AfterRead(q, top), Reg(ir), WordAt(q, top))
  {
    hide PutWord, AfterRead, AfterWrite;
    var s := m.mem;
    var top := GetR(s, R_SP) + 2;
    var p := SetR(s, R_PC, GetR(s, Reg(ir)));
    SetGet(s, R_PC, GetR(s, Reg(ir)), R_SP);
    assert Bump(p, Cell(R_SP), 2) == Popped(s, Reg(ir), top);
    PoppedRegisters(s, Reg(ir), top, R_SP);
  }

  lemma ReturnRegisters(m: Machine, ir: word, r: word)
    requires Rts(m, ir).Some? && Reg(ir) != R_SP && r < 8
    requires GetR(m.mem, R_SP) < 0xFFFE && StackWord(GetR(m.mem, R_SP) + 2)
    ensures var s := m.mem;
            var top := GetR(s, R_SP) + 2;
            GetR(Rts(m, ir).value.mem, r) ==
            if r == Reg(ir) then WordAt(s, top)
            else if r == R_PC then GetR(s, Reg(ir))
            else if r == R_SP then top
            else GetR(s, r)
  {
    hide PutWord, AfterRead, AfterWrite;
    var s := m.mem;
    var link, top := Reg(ir), GetR(s, R_SP) + 2;
    ReturnIs(m, ir);
    var q := Popped(s, link, top);
    PoppedRegisters(s, link, top, r);
    PoppedMemory(s, link, top, top);
    PoppedMemory(s, link, top, top + 1);
    ReadIsDeviceOnly(q, top);
    DeviceKeepsRegister(q, AfterRead(q, top), r);
    SetGet(AfterRead(q, top), link, WordAt(q, top), r);
  }

  lemma ReturnMemory(m: Machine, ir: word)
    requires Rts(m, ir).Some? && GetR(m.mem, R_SP) < 0xFFFE
    ensures Kept(m.mem, Rts(m, ir).value.mem, 0)
  {
    var top := GetR(m.mem, R_SP) + 2;
    ReturnIs(m, ir);
    var q := Popped(m.mem, Reg(ir), top);
    ReadIsDeviceOnly(q, top);
    forall a | 0 <= a < MEM_BYTES && !RegisterCell(a) && !DeviceCell(a)
      ensures Rts(m, ir).value.mem[a] == m.mem[a]
    {
      PoppedMemory(m.mem, Reg(ir), top, a);
      SetKeeps(AfterRead(q, top), Reg(ir), WordAt(q, top), a);
    }
  }

  lemma FetchRegisters(m: Machine, r: word)
    requires Fetched(m).Some? && r < 8
    ensures GetR(Ready(m).mem, r) == if r == R_PC then Sum(GetR(m.mem, R_PC), 2) else GetR(m.mem, r)
  {
    hide PutWord, AfterRead, AfterWrite;
    var l := Load(m.mem, GetR(m.mem, R_PC)).value;
    ReadIsDeviceOnly(m.mem, GetR(m.mem, R_PC));
    DeviceKeepsRegister(m.mem, l.mem, r);
    DeviceKeepsRegister(m.mem, l.mem, R_PC);
    SetGet(l.mem, R_PC, (GetR(l.mem, R_PC) + 2) % 0x1_0000, r);
  }

  lemma FetchMemory(m: Machine)
    requires Fetched(m).Some?
    ensures Kept(m.mem, Ready(m).mem, 0)
  {
    var l := Load(m.mem, GetR(m.mem, R_PC)).value;
    ReadIsDeviceOnly(m.mem, GetR(m.mem, R_PC));
    forall a | 0 <= a < MEM_BYTES && !RegisterCell(a) && !DeviceCell(a) ensures Ready(m).mem[a] == m.mem[a] {
      SetKeeps(l.mem, R_PC, (GetR(l.mem, R_PC) + 2) % 0x1_0000, a);
    }
  }

  predicate LinkRegisters(links: set<word>) { forall r :: r in links ==> r < R_SP }

  /** Where a call's body starts, seen from the state its operand left. */
  lemma EntryIs(m: Machine, entered: Machine, r: word)
    requires AtJsr(m) && LinkAt(m) != R_SP && CallPass(m).Some? && Between(CallPass(m).value, entered)
    requires StackWord(GetR(Addressed(m).value, R_SP)) && r < R_PC
    ensures var o := Addressed(m).value;
            GetR(entered.mem, r) ==
            if r == R_SP then GetR(o, R_SP) - 2 else if r == LinkAt(m) then GetR(o, R_PC) else GetR(o, r)
  {
    hide PutWord, AfterRead, AfterWrite;
    var o := Operand(Ready(m), Fetched(m).value.value).value;
    var target := Load(o.mem, o.value).value;
    ReadIsDeviceOnly(o.mem, o.value);
    DeviceKeepsRegister(o.mem, target.mem, r);
    DeviceKeepsRegister(o.mem, target.mem, R_SP);
    DeviceKeepsRegister(o.mem, target.mem, R_PC);
    LinkedRegisters(target.mem, LinkAt(m), target.value, r);
    DeviceKeepsRegister(CallPass(m).value.mem, entered.mem, r);
  }

  lemma EntryMemory(m: Machine, entered: Machine)
    requires AtJsr(m) && LinkAt(m) != R_SP && CallPass(m).Some? && Between(CallPass(m).value, entered)
    requires StackWord(GetR(Addressed(m).value, R_SP))
    ensures var o := Addressed(m).value;
            WordAt(entered.mem, GetR(o, R_SP)) == GetR(o, LinkAt(m)) && Kept(o, entered.mem, GetR(o, R_SP) + 2)
  {
    var o := Operand(Ready(m), Fetched(m).value.value).value;
    var target := Load(o.mem, o.value).value;
    ReadIsDeviceOnly(o.mem, o.value);
    DeviceKeepsRegister(o.mem, target.mem, LinkAt(m));
    DeviceKeepsRegister(o.mem, target.mem, R_SP);
    LinkedMemory(target.mem, LinkAt(m), target.value);
    var sp := GetR(o.mem, R_SP);
    var u := CallPass(m).value.mem;
    assert u[sp] == entered.mem[sp] && u[sp + 1] == entered.mem[sp + 1];
  }

  /** Where a return leads, seen from the last state of the body. */
  lemma ExitIs(last: Machine, left: Machine, link: word, sp: nat, r: word)
    requires AtRts(last, link) && link != R_SP && ReturnPass(last).Some? && Between(ReturnPass(last).value, left)
    requires StackWord(sp) && GetR(last.mem, R_SP) == sp - 2 && r < 8
    ensures GetR(left.mem, r) ==
            if r == link then WordAt(last.mem, sp)
            else if r == R_PC then GetR(last.mem, link)
            else if r == R_SP then sp
            else GetR(last.mem, r)
  {
    hide PutWord, AfterRead, AfterWrite;
    FetchRegisters(last, r);
    FetchRegisters(last, R_SP);
    FetchRegisters(last, link);
    FetchMemory(last);
    assert Ready(last).mem[sp] == last.mem[sp] && Ready(last).mem[sp + 1] == last.mem[sp + 1];
    ReturnRegisters(Ready(last), Fetched(last).value.value, r);
    DeviceKeepsRegister(ReturnPass(last).value.mem, left.mem, r);
  }

  lemma ExitMemory(last: Machine, left: Machine)
    requires Fetched(last).Some? && ReturnPass(last).Some? && Between(ReturnPass(last).value, left)
    requires GetR(last.mem, R_SP) < 0xFFFE
    ensures Kept(last.mem, left.mem, 0)
  {
    FetchMemory(last);
    FetchRegisters(last, R_SP);
    ReturnMemory(Ready(last), Fetched(last).value.value);
  }

  lemma FrameTrans(s: Store, t: Store, u: Store, links: set<word>)
    requires Frame(s, t, links) && Frame(t, u, links)
    ensures Frame(s, u, links)
  {
  }

  /** By induction over the tree: a call gives back the stack pointer, the words above it, the
      links in use, its own link as the operand left it, and resumes behind itself. */
  lemma {:induction false} CallRestores(m: Machine, i: Item, links: set<word>)
    requires i.Call? && Happens(m, i, links) && LinkRegisters(links)
    ensures Frame(m.mem, i.left.mem, links)
    ensures GetR(i.left.mem, R_PC) == GetR(Addressed(m).value, R_PC)
    ensures GetR(i.left.mem, LinkAt(m)) == GetR(Addressed(m).value, LinkAt(m))
    decreases i
  {
    hide PutWord, AfterRead, AfterWrite;
    var link, o, sp := LinkAt(m), Addressed(m).value, GetR(m.mem, R_SP);
    var last := End(i.entered, i.body);
    var inner := Using(links, link);
    EntryIs(m, i.entered, R_SP);
    EntryMemory(m, i.entered);
    BodyRestores(i.entered, i.body, inner);
    assert last.mem[sp] == i.entered.mem[sp] && last.mem[sp + 1] == i.entered.mem[sp + 1];
    ExitIs(last, i.left, link, sp, R_SP);
    ExitIs(last, i.left, link, sp, R_PC);
    ExitIs(last, i.left, link, sp, link);
    ExitMemory(last, i.left);
    if link != R_PC {
      EntryIs(m, i.entered, link);
      assert link in inner;
    }
    forall r | r in links ensures GetR(i.left.mem, r) == GetR(m.mem, r) {
      ExitIs(last, i.left, link, sp, r);
      EntryIs(m, i.entered, r);
    }
  }

  lemma {:induction false} BodyRestores(m: Machine, items: seq<Item>, links: set<word>)
    requires HappenAll(m, items, links) && LinkRegisters(links)
    ensures Frame(m.mem, End(m, items).mem, links)
    decreases items
  {
    hide PutWord, AfterRead, AfterWrite;
    if items != [] {
      var next := After(items[0]);
      if items[0].Call? {
        CallRestores(m, items[0], links);
      }
      BodyRestores(next, items[1..], links);
      assert End(next, items[1..]) == End(m, items);
      FrameTrans(m.mem, next.mem, End(m, items).mem, links);
    }
  }

  // Operands that change nothing but the program counter

  predicate Plain(ir: word) {
    Reg(ir) == R_PC || Mode(ir) in {0, 1, 6, 7}
  }

  /** The operand words that follow an instruction, in bytes. */
  function OperandBytes(ir: word): word {
    if (if Reg(ir) == R_PC then Mode(ir) in {2, 3, 6} else Mode(ir) in {6, 7}) then 2 else 0
  }

  ghost predicate Advanced(s: Store, t: Store, n: word) {
    && Kept(s, t, 0) && GetR(t, R_PC) == Sum(GetR(s, R_PC), n)
    && forall r: word :: r < R_PC ==> GetR(t, r) == GetR(s, r)
  }

  lemma BumpAdvances(s: Store)
    ensures Advanced(s, Bump(s, Cell(R_PC), 2), 2)
  {
    hide PutWord, AfterRead, AfterWrite;
    var v := Sum(GetR(s, R_PC), 2);
    SetGet(s, R_PC, v, R_PC);
    forall r: word | r < R_PC ensures GetR(SetR(s, R_PC, v), r) == GetR(s, r) {
      SetGet(s, R_PC, v, r);
    }
    forall a | 0 <= a < MEM_BYTES && !RegisterCell(a) && !DeviceCell(a) ensures SetR(s, R_PC, v)[a] == s[a] {
      SetKeeps(s, R_PC, v, a);
    }
  }

  lemma LoadAdvances(s: Store, t: Store, loc: nat, n: word)
    requires Advanced(s, t, n) && loc + 1 < MEM_BYTES
    ensures Advanced(s, Load(t, loc).value.mem, n)
  {
    hide PutWord, AfterRead, AfterWrite;
    var u := AfterRead(t, loc);
    ReadIsDeviceOnly(t, loc);
    DeviceKeepsRegister(t, u, R_PC);
    forall r: word | r < R_PC ensures GetR(u, r) == GetR(s, r) {
      DeviceKeepsRegister(t, u, r);
    }
  }

  lemma FollowAdvances(s: Store, l: Option<Loaded>, offset: word, n: word)
    requires Follow(l, offset).Some? && Advanced(s, l.value.mem, n)
    ensures Advanced(s, Follow(l, offset).value.mem, n)
  {
    hide PutWord, AfterRead, AfterWrite;
    LoadAdvances(s, l.value.mem, Sum(l.value.value, offset), n);
  }

  lemma StepAdvances(s: Store)
    requires StepThenLoad(s).Some?
    ensures Advanced(s, StepThenLoad(s).value.mem, 2)
  {
    hide PutWord, AfterRead, AfterWrite;
    BumpAdvances(s);
    LoadAdvances(s, Bump(s, Cell(R_PC), 2), GetR(s, R_PC), 2);
  }

  lemma AdvancedTwice(s: Store, t: Store, u: Store, a: word, b: word)
    requires Advanced(s, t, a) && Advanced(t, u, b)
    ensures Advanced(s, u, Sum(a, b))
  {
    SumSum(GetR(s, R_PC), a, b);
    hide Sum, GetR, RegisterCell, DeviceCell;
  }

  lemma SumSum(x: word, a: word, b: word)
    ensures Sum(Sum(x, a), b) == Sum(x, Sum(a, b))
  {
  }

  lemma NextAdvances(s: Store)
    requires LoadNext(s).Some?
    ensures Advanced(s, LoadNext(s).value.mem, 2)
  {
    hide PutWord, AfterRead, AfterWrite;
    LoadAdvances(s, s, GetR(s, R_PC), 0);
    var l := Load(s, GetR(s, R_PC)).value;
    BumpAdvances(l.mem);
    AdvancedTwice(s, l.mem, Bump(l.mem, Cell(R_PC), 2), 0, 2);
  }

  lemma PlainOperand(m: Machine, ir: word)
    requires Plain(ir) && Operand(m, ir).Some?
    ensures Advanced(m.mem, Operand(m, ir).value.mem, OperandBytes(ir))
  {
    hide PutWord, AfterRead, AfterWrite;
    var s, mode := m.mem, Mode(ir);
    if Reg(ir) == R_PC {
      if mode == 2 || mode == 3 {
        BumpAdvances(s);
        if mode == 3 {
          FollowAdvances(s, Some(Loaded(Bump(s, Cell(R_PC), 2), GetR(s, R_PC))), 0, 2);
        }
      } else if mode == 6 {
        NextAdvances(s);
      }
    } else if mode >= 6 {
      StepAdvances(s);
      IndexedOperand(m, ir, StepThenLoad(s));
    }
  }

  lemma IndexedOperand(m: Machine, ir: word, l: Option<Loaded>)
    requires Operand(m, ir).Some? && Reg(ir) != R_PC && Mode(ir) >= 6
    requires l == StepThenLoad(m.mem) && l.Some? && Advanced(m.mem, l.value.mem, 2)
    ensures Advanced(m.mem, Operand(m, ir).value.mem, 2)
  {
    hide PutWord, AfterRead, AfterWrite;
    var s, reg := m.mem, Reg(ir);
    if Mode(ir) == 6 {
      if reg != R_SP {
        FollowAdvances(s, l, GetR(l.value.mem, reg), 2);
      }
    } else if reg == R_SP {
      FollowAdvances(s, l, GetR(l.value.mem, R_SP), 2);
    } else {
      LoadAdvances(s, l.value.mem, GetR(l.value.mem, reg), 2);
      var inner := Load(l.value.mem, GetR(l.value.mem, reg));
      FollowAdvances(s, inner, l.value.value, 2);
    }
  }

  /** Nested calls restore state: from the call instruction to the pass after its return, for
      every tree of calls beneath it, the stack pointer, the link register, the links of the
      callers and the words above the stack pointer are what they were, and execution
      resumes with the instruction that follows the call. */
  lemma NestedCallsRestore(m: Machine, i: Item, links: set<word>)
    requires i.Call? && Happens(m, i, links) && LinkRegisters(links)
    requires Plain(Fetched(m).value.value)
    ensures GetR(i.left.mem, R_SP) == GetR(m.mem, R_SP)
    ensures LinkAt(m) != R_PC ==> GetR(i.left.mem, LinkAt(m)) == GetR(m.mem, LinkAt(m))
    ensures GetR(i.left.mem, R_PC) == Sum(GetR(m.mem, R_PC), 2 + OperandBytes(Fetched(m).value.value))
    ensures Kept(m.mem, i.left.mem, GetR(m.mem, R_SP) + 2) && LinksKept(m.mem, i.left.mem, links)
  {
    hide PutWord, AfterRead, AfterWrite, HappenAll, Linked, PcMode, SpMode, GeneralMode, GetR, LoadNext;
    CallRestores(m, i, links);
    NextAdvances(m.mem);
    PlainOperand(Ready(m), Fetched(m).value.value);
    AdvancedTwice(m.mem, Ready(m).mem, Addressed(m).value, 2, OperandBytes(Fetched(m).value.value));
  }

  /** The smallest tree: a call whose target starts with the return.  Its two passes alone,
      whatever the devices do between them, restore the state. */
  lemma LeafCall(m: Machine, entered: Machine, left: Machine)
    requires AtJsr(m) && LinkAt(m) != R_SP && Plain(Fetched(m).value.value) && StackWord(GetR(m.mem, R_SP))
    requires CallPass(m).Some? && Between(CallPass(m).value, entered)
    requires AtRts(entered, LinkAt(m)) && ReturnPass(entered).Some? && Between(ReturnPass(entered).value, left)
    ensures GetR(left.mem, R_SP) == GetR(m.mem, R_SP)
    ensures GetR(left.mem, R_PC) == Sum(GetR(m.mem, R_PC), 2 + OperandBytes(Fetched(m).value.value))
    ensures LinkAt(m) != R_PC ==> GetR(left.mem, LinkAt(m)) == GetR(m.mem, LinkAt(m))
    ensures Kept(m.mem, left.mem, GetR(m.mem, R_SP) + 2)
  {
    hide PutWord, AfterRead, AfterWrite, Linked, PcMode, SpMode, GeneralMode, GetR, LoadNext;
    var ir := Fetched(m).value.value;
    NextAdvances(m.mem);
    PlainOperand(Ready(m), ir);
    AdvancedTwice(m.mem, Ready(m).mem, Addressed(m).value, 2, OperandBytes(ir));
    var i := Call(entered, [], left);
    assert Happens(m, i, {});
    NestedCallsRestore(m, i, {});
  }
}
