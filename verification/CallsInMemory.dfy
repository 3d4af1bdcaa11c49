/** Subroutines as they lie in the older emulator's memory: what the loop makes of any tree of
    calls written there. */
module CallsInMemory {
  import opened Wrappers
  import opened MemoryDevice
  import opened AtticMemory
  import opened AtticJsr
  import opened RegisterFile
  import opened CallTrees

  // The layout

  /** A word of code: memory and nothing else, above the stack. */
  predicate CodeWord(loc: nat, top: nat) {
    top + 2 <= loc && loc + 1 < MEM_BYTES && Clear(loc, 2) && !DeviceCell(loc) && !DeviceCell(loc + 1)
  }

  /** `JSR link,#target` at a place. */
  predicate CallSite(s: Store, pc: nat, top: nat) {
    && CodeWord(pc, top) && CodeWord(pc + 2, top)
    && IsJsr(WordAt(s, pc)) && Mode(WordAt(s, pc)) == 2 && Reg(WordAt(s, pc)) == R_PC && Link(WordAt(s, pc)) != R_SP
  }

  /** What a subroutine calls, in order. */
  datatype Calls = Calls(inner: seq<Calls>)

  /** The call of such a subroutine at `pc`, made with the stack pointer `sp`; all code lies above
      the stack of the outermost caller, `top`.  Subroutines may share code. */
  predicate CallAt(s: Store, pc: nat, sp: nat, top: nat, c: Calls)
    decreases c
  {
    && sp <= top && StackWord(sp) && CallSite(s, pc, top)
    && BodyAt(s, WordAt(s, pc + 2), sp - 2, top, Link(WordAt(s, pc)), c.inner)
  }

  /** A subroutine's calls one behind the other, and `RTS link` behind the last. */
  predicate BodyAt(s: Store, pc: nat, sp: nat, top: nat, link: word, inner: seq<Calls>)
    decreases inner
  {
    if inner == [] then CodeWord(pc, top) && WordAt(s, pc) == 0x80 + link
    else CallAt(s, pc, sp, top, inner[0]) && BodyAt(s, pc + 4, sp, top, link, inner[1..])
  }

  lemma WordKept(s: Store, t: Store, loc: nat, top: nat, from: nat)
    requires CodeWord(loc, top) && Kept(s, t, from) && from <= top + 2
    ensures WordAt(t, loc) == WordAt(s, loc)
  {
    assert t[loc] == s[loc] && t[loc + 1] == s[loc + 1];
  }

  lemma SiteKept(s: Store, t: Store, pc: nat, top: nat, from: nat)
    requires CallSite(s, pc, top) && Kept(s, t, from) && from <= top + 2
    ensures CallSite(t, pc, top) && WordAt(t, pc) == WordAt(s, pc) && WordAt(t, pc + 2) == WordAt(s, pc + 2)
  {
    WordKept(s, t, pc, top, from);
    WordKept(s, t, pc + 2, top, from);
  }

  lemma {:induction false} CallKept(s: Store, t: Store, pc: nat, sp: nat, top: nat, c: Calls, from: nat)
    requires CallAt(s, pc, sp, top, c) && Kept(s, t, from) && from <= top + 2
    ensures CallAt(t, pc, sp, top, c)
    decreases c
  {
    hide Kept, WordAt, Clear, DeviceCell;
    SiteKept(s, t, pc, top, from);
    BodyKept(s, t, WordAt(s, pc + 2), sp - 2, top, Link(WordAt(s, pc)), c.inner, from);
  }

  lemma {:induction false} BodyKept(s: Store, t: Store, pc: nat, sp: nat, top: nat, link: word,
                                   inner: seq<Calls>, from: nat)
    requires BodyAt(s, pc, sp, top, link, inner) && Kept(s, t, from) && from <= top + 2
    ensures BodyAt(t, pc, sp, top, link, inner)
    decreases inner
  {
    hide Kept, CodeWord, WordAt;
    if inner == [] {
      WordKept(s, t, pc, top, from);
    } else {
      CallKept(s, t, pc, sp, top, inner[0], from);
      BodyKept(s, t, pc + 4, sp, top, link, inner[1..], from);
    }
  }

  // The loop

  /** One pass of the loop at a call or a return; other instructions have no result here. */
  function Pass(m: Machine): Option<Machine> {
    if Fetched(m).None? then None
    else if IsJsr(Fetched(m).value.value) then CallPass(m)
    else if IsRts(Fetched(m).value.value) then ReturnPass(m)
    else None
  }

  /** The loop for `n` passes from time `t` on, with what the devices do after each. */
  function Passes(m: Machine, t: nat, n: nat, devices: (nat, Machine) -> Machine): Option<Machine>
    decreases n
  {
    if n == 0 then Some(m)
    else match Pass(m)
         case None => None
         case Some(u) => Passes(devices(t, u), t + 1, n - 1, devices)
  }

  ghost predicate OnlyDevices(devices: (nat, Machine) -> Machine) {
    forall t, m :: Between(m, devices(t, m))
  }

  lemma {:induction false} PassesAdd(m: Machine, t: nat, a: nat, b: nat, devices: (nat, Machine) -> Machine)
    requires Passes(m, t, a, devices).Some?
    ensures Passes(m, t, a + b, devices) == Passes(Passes(m, t, a, devices).value, t + a, b, devices)
    decreases a
  {
    hide Pass;
    if a > 0 {
      PassesAdd(devices(t, Pass(m).value), t + 1, a - 1, b, devices);
    }
  }

  function Size(c: Calls): nat
    decreases c
  {
    1 + Sizes(c.inner)
  }

  function Sizes(inner: seq<Calls>): nat
    decreases inner
  {
    if inner == [] then 0 else Size(inner[0]) + Sizes(inner[1..])
  }

  // One call

  lemma FetchesWord(m: Machine)
    requires GetR(m.mem, R_PC) + 1 < MEM_BYTES
    ensures Fetched(m).Some? && Fetched(m).value.value == WordAt(m.mem, GetR(m.mem, R_PC))
    ensures Advanced(m.mem, Ready(m).mem, 2)
  {
    NextAdvances(m.mem);
  }

  lemma ImmediateOperand(m: Machine, ir: word)
    requires Mode(ir) == 2 && Reg(ir) == R_PC
    ensures Operand(m, ir) == Some(Loaded(Bump(m.mem, Cell(R_PC), 2), GetR(m.mem, R_PC)))
    ensures Plain(ir) && OperandBytes(ir) == 2
  {
  }

  lemma CallOperand(m: Machine, top: nat) returns (o: Store)
    requires CallSite(m.mem, GetR(m.mem, R_PC), top)
    ensures AtJsr(m) && Fetched(m).value.value == WordAt(m.mem, GetR(m.mem, R_PC))
    ensures Operand(Ready(m), Fetched(m).value.value) == Some(Loaded(o, GetR(m.mem, R_PC) + 2))
    ensures Plain(Fetched(m).value.value) && OperandBytes(Fetched(m).value.value) == 2
    ensures Advanced(m.mem, o, 4)
  {
    hide PutWord, AfterRead, Operand, LoadNext, Kept, WordAt, Clear, DeviceCell;
    FetchesWord(m);
    var ready := Ready(m);
    ImmediateOperand(ready, Fetched(m).value.value);
    o := Bump(ready.mem, Cell(R_PC), 2);
    BumpAdvances(ready.mem);
    AdvancedTwice(m.mem, ready.mem, o, 2, 2);
  }

  /** Where a call leads and what it leaves. */
  lemma Enters(m: Machine, sp: nat, top: nat)
    requires sp <= top && StackWord(sp) && GetR(m.mem, R_SP) == sp && CallSite(m.mem, GetR(m.mem, R_PC), top)
    ensures AtJsr(m) && Fetched(m).value.value == WordAt(m.mem, GetR(m.mem, R_PC)) && CallPass(m).Some?
    ensures Addressed(m).Some? && Advanced(m.mem, Addressed(m).value, 4)
    ensures GetR(CallPass(m).value.mem, R_PC) == WordAt(m.mem, GetR(m.mem, R_PC) + 2)
  {
    var pc := GetR(m.mem, R_PC);
    var o := CallOperand(m, top);
    WordKept(m.mem, o, pc + 2, top, 0);
    LoadAdvances(m.mem, o, pc + 2, 4);
    hide PutWord, AfterRead, Operand, LoadNext, Linked, WordAt, Kept;
    LinkedRegisters(Load(o, pc + 2).value.mem, LinkAt(m), WordAt(o, pc + 2), R_PC);
  }

  lemma EntersFrame(m: Machine, entered: Machine, sp: nat)
    requires AtJsr(m) && LinkAt(m) != R_SP && CallPass(m).Some? && Between(CallPass(m).value, entered)
    requires Advanced(m.mem, Addressed(m).value, 4) && StackWord(sp) && GetR(m.mem, R_SP) == sp
    ensures GetR(entered.mem, R_SP) == sp - 2 && Kept(m.mem, entered.mem, sp + 2)
    ensures GetR(entered.mem, R_PC) == GetR(CallPass(m).value.mem, R_PC)
  {
    hide PutWord, AfterRead, AfterWrite, Linked;
    EntryIs(m, entered, R_SP);
    EntryMemory(m, entered);
    DeviceKeepsRegister(CallPass(m).value.mem, entered.mem, R_PC);
  }

  lemma AddressedFrame(m: Machine, links: set<word>)
    requires AtJsr(m) && Addressed(m).Some? && Advanced(m.mem, Addressed(m).value, 4) && LinkRegisters(links)
    ensures Frame(m.mem, Addressed(m).value, links)
  {
  }

  lemma Returns(m: Machine, link: word, sp: nat)
    requires link < 8 && link != R_SP && StackWord(sp) && GetR(m.mem, R_SP) == sp - 2
    requires GetR(m.mem, R_PC) + 1 < MEM_BYTES && WordAt(m.mem, GetR(m.mem, R_PC)) == 0x80 + link
    ensures AtRts(m, link) && !AtJsr(m) && ReturnPass(m).Some?
  {
    hide PutWord, AfterRead;
    var ir := Fetched(m).value.value;
    FetchRegisters(m, R_SP);
    var s := Ready(m).mem;
    SetGet(s, R_PC, GetR(s, link), R_SP);
    var p := SetR(s, R_PC, GetR(s, link));
    SetGet(p, R_SP, sp, R_SP);
    assert Bump(p, Cell(R_SP), 2) == SetR(p, R_SP, sp);
  }

  // Trees of calls

  lemma CallParts(s: Store, pc: nat, sp: nat, top: nat, c: Calls)
    requires CallAt(s, pc, sp, top, c)
    ensures 2 <= sp <= top && pc + 3 < MEM_BYTES && StackWord(sp) && CallSite(s, pc, top)
    ensures Link(WordAt(s, pc)) != R_SP && BodyAt(s, WordAt(s, pc + 2), sp - 2, top, Link(WordAt(s, pc)), c.inner)
  {
  }

  lemma CallIs(m: Machine, entered: Machine, body: seq<Item>, left: Machine, links: set<word>)
    requires AtJsr(m) && LinkAt(m) != R_SP && CallPass(m).Some? && Between(CallPass(m).value, entered)
    requires Addressed(m).Some? && Frame(m.mem, Addressed(m).value, links) && StackWord(GetR(m.mem, R_SP))
    requires HappenAll(entered, body, Using(links, LinkAt(m)))
    requires var last := End(entered, body);
             AtRts(last, LinkAt(m)) && ReturnPass(last).Some? && Between(ReturnPass(last).value, left)
    ensures Happens(m, Call(entered, body, left), links)
  {
    hide HappenAll, Frame, Between, CallPass, ReturnPass, Addressed, AtJsr, AtRts, StackWord;
  }

  /** A call, its body and its return, as passes of the loop. */
  lemma CallPasses(m: Machine, t: nat, n: nat, last: Machine, devices: (nat, Machine) -> Machine)
    requires AtJsr(m) && CallPass(m).Some?
    requires Passes(devices(t, CallPass(m).value), t + 1, n, devices) == Some(last)
    requires Fetched(last).Some? && IsRts(Fetched(last).value.value) && !AtJsr(last) && ReturnPass(last).Some?
    ensures Passes(m, t, n + 2, devices) == Some(devices(t + 1 + n, ReturnPass(last).value))
  {
    hide CallPass, ReturnPass, Fetched, IsJsr, IsRts;
    PassesAdd(devices(t, CallPass(m).value), t + 1, n, 1, devices);
    assert Passes(devices(t + 1 + n, ReturnPass(last).value), t + 2 + n, 0, devices).Some?;
  }

  lemma UsingRegisters(links: set<word>, link: word)
    requires LinkRegisters(links) && link < 8 && link != R_SP
    ensures LinkRegisters(Using(links, link))
  {
  }

  /** The tree of what happens from a call laid out in memory on, and the passes it takes. */
  lemma {:induction false} CallHappens(m: Machine, t: nat, sp: nat, top: nat, c: Calls, links: set<word>,
                                      devices: (nat, Machine) -> Machine) returns (i: Item)
    requires GetR(m.mem, R_SP) == sp && CallAt(m.mem, GetR(m.mem, R_PC), sp, top, c)
    requires OnlyDevices(devices) && LinkRegisters(links)
    ensures i.Call? && Happens(m, i, links)
    ensures Plain(Fetched(m).value.value) && OperandBytes(Fetched(m).value.value) == 2
    ensures Passes(m, t, 2 * Size(c), devices) == Some(i.left)
    decreases c
  {
    hide Happens, HappenAll, CallSite, StackWord, WordAt, GetR, Kept, Advanced, Frame, Addressed, CallPass, ReturnPass,
         Passes, Pass, Using, LinkRegisters, PutWord, Fetched, IsJsr, IsRts, Between;
    var pc := GetR(m.mem, R_PC);
    CallParts(m.mem, pc, sp, top, c);
    Enters(m, sp, top);
    var link := LinkAt(m);
    var entered := devices(t, CallPass(m).value);
    assert Between(CallPass(m).value, entered);
    EntersFrame(m, entered, sp);
    BodyKept(m.mem, entered.mem, WordAt(m.mem, pc + 2), sp - 2, top, link, c.inner, sp + 2);
    UsingRegisters(links, link);
    var body := BodyHappens(entered, t + 1, sp - 2, top, link, c.inner, Using(links, link), devices);
    var last := End(entered, body);
    Returns(last, link, sp);
    AddressedFrame(m, links);
    var o := CallOperand(m, top);
    var left := devices(t + 1 + 2 * Sizes(c.inner), ReturnPass(last).value);
    assert Between(ReturnPass(last).value, left);
    CallIs(m, entered, body, left, links);
    CallPasses(m, t, 2 * Sizes(c.inner), last, devices);
    i := Call(entered, body, left);
  }

  lemma {:induction false} BodyHappens(m: Machine, t: nat, sp: nat, top: nat, link: word, inner: seq<Calls>,
                                      links: set<word>, devices: (nat, Machine) -> Machine) returns (items: seq<Item>)
    requires GetR(m.mem, R_SP) == sp && BodyAt(m.mem, GetR(m.mem, R_PC), sp, top, link, inner)
    requires sp <= top && OnlyDevices(devices) && LinkRegisters(links)
    ensures HappenAll(m, items, links)
    ensures Passes(m, t, 2 * Sizes(inner), devices) == Some(End(m, items))
    ensures var s := End(m, items).mem;
            GetR(s, R_SP) == sp && GetR(s, R_PC) + 1 < MEM_BYTES && WordAt(s, GetR(s, R_PC)) == 0x80 + link
    decreases inner
  {
    hide Happens, CallAt, StackWord, WordAt, GetR, Kept, Pass, LinkRegisters, PutWord, LinksKept, Fetched,
         Clear, DeviceCell, Plain, OperandBytes, Size, CallPass, Between, OnlyDevices, IsJsr;
    if inner == [] {
      items := [];
    } else {
      var i := CallHappens(m, t, sp, top, inner[0], links, devices);
      NestedCallsRestore(m, i, links);
      CallBelow(m.mem, GetR(m.mem, R_PC), sp, top, link, inner);
      BodyKept(m.mem, i.left.mem, GetR(m.mem, R_PC) + 4, sp, top, link, inner[1..], sp + 2);
      var rest := BodyHappens(i.left, t + 2 * Size(inner[0]), sp, top, link, inner[1..], links, devices);
      items := [i] + rest;
      assert items[1..] == rest;
      PassesAdd(m, t, 2 * Size(inner[0]), 2 * Sizes(inner[1..]), devices);
    }
  }

  /** What is behind a call in a body lies in memory. */
  lemma CallBelow(s: Store, pc: nat, sp: nat, top: nat, link: word, inner: seq<Calls>)
    requires inner != [] && BodyAt(s, pc, sp, top, link, inner)
    ensures pc + 5 < MEM_BYTES
  {
    if inner[1..] != [] {
      assert CallAt(s, pc + 4, sp, top, inner[1..][0]);
    }
  }

  /** With a call of any tree of subroutines in memory, the loop makes twice as many passes as
      there are calls, whatever the devices do between them, and gives back the stack pointer,
      the link and every word above the stack pointer, behind the call's two words. */
  lemma CallsRestore(m: Machine, t: nat, c: Calls, devices: (nat, Machine) -> Machine) returns (left: Machine)
    requires CallAt(m.mem, GetR(m.mem, R_PC), GetR(m.mem, R_SP), GetR(m.mem, R_SP), c) && OnlyDevices(devices)
    ensures Passes(m, t, 2 * Size(c), devices) == Some(left)
    ensures GetR(left.mem, R_SP) == GetR(m.mem, R_SP) && GetR(left.mem, R_PC) == (GetR(m.mem, R_PC) + 4) % 0x1_0000
    ensures var link := Link(WordAt(m.mem, GetR(m.mem, R_PC)));
            link != R_PC ==> GetR(left.mem, link) == GetR(m.mem, link)
    ensures Kept(m.mem, left.mem, GetR(m.mem, R_SP) + 2)
  {
    hide Happens, StackWord, CallSite, WordAt, GetR, Kept, Passes, PutWord, LoadNext, IsJsr;
    var pc, sp := GetR(m.mem, R_PC), GetR(m.mem, R_SP);
    CallParts(m.mem, pc, sp, sp, c);
    var i := CallHappens(m, t, sp, sp, c, {}, devices);
    NestedCallsRestore(m, i, {});
    FetchesWord(m);
    left := i.left;
  }
}
