/** The data bus refines an atomic memory. */
module DataBusRefinement {
  import opened Wrappers
  import opened MemoryDevice
  import opened DataBus
  import opened DataBusSystem

  /** Where the one outstanding call is. */
  datatype Stage = Nowhere | InMaster | InBuffer | Requested | Taken | Demanding | Performed | Replied
                 | Answering | Responded | Delivered | Finished | Lost

  function Slot(c: Call): Xfer {
    match c
    case ReadWord(a) => Xfer(R_BLOCK_IN, a, 0)
    case WriteWord(a, d) => Xfer(R_BLOCK_OUT, a, d)
    case WriteByte(a, b) => Xfer(R_BLOCK_OUTB, a, b)
  }

  function Wire(c: Call): BusMsg {
    match c
    case ReadWord(a) => BusMsg(Req, DATI, a, 0, false)
    case WriteWord(a, d) => BusMsg(Req, DATO, a, d, false)
    case WriteByte(a, b) => BusMsg(Req, DATOB, a, b, false)
  }

  predicate Local(c: Call) { Defined(c) && IsLocalAddr(c.addr) }

  /** The stages after the memory has done the call's work. */
  predicate Served(st: Stage) {
    st == Performed || st == Replied || st == Answering || st == Responded || st == Delivered || st == Finished
  }

  predicate AtDevice(st: Stage) { st == Demanding || st == Performed || st == Replied }

  predicate OnWay(st: Stage) {
    st == Requested || st == Taken || AtDevice(st) || st == Answering || st == Responded || st == Delivered
  }

  /** The master's side: main thread, its slot, and its bus thread. */
  ghost predicate MasterSide(s: Sys, st: Stage) {
    && (s.main == Free <==> st == Nowhere)
    && (s.main == Woken ==> st == Finished)
    && (if st == InMaster then Post(s.master, s.call) == s.master
        else if st == Finished then s.master.op == R_DONE
        else s.master.op == R_NONE)
    && (if st == InBuffer then Outgoing(s.buffer) == Some(Wire(s.call)) && s.cpuBus == AtOp
        else s.buffer.op == R_NONE)
    && (s.cpuBus.GotResp? <==> st == Delivered)
    && (s.cpuBus == ToSignal ==> st == Finished && s.main != Woken)
    && (s.cpuBus == ToClear ==> !OnWay(st) && st != Lost)
    && (s.reqIssued <==> OnWay(st) || st == Lost || s.cpuBus == ToSignal || s.cpuBus == ToClear)
  }

  /** The memory's side: its slot, its bus thread and its main thread. */
  ghost predicate MemorySide(s: Sys, st: Stage) {
    && (if st == Demanding || st == Performed then s.slave == Slot(s.call)
        else if st == Replied then s.slave.op == R_DONE else s.slave == FREE)
    && (match s.memBus
        case Idle => st != Taken && !AtDevice(st) && st != Answering
        case GotReq(m) => st == Taken && m == Wire(s.call)
        case ToWake(c) => st == Demanding && c == Wire(s.call).c && (s.mem == ToWait || s.mem == InWait)
        case ToSleep(c) => AtDevice(st) && c == Wire(s.call).c
        case Sleeping(c) => AtDevice(st) && c == Wire(s.call).c
        case Awake(c) => st == Replied && c == Wire(s.call).c && (s.mem == ToWait || s.mem == InWait)
        case ToSend(m) => st == Answering)
    && (match s.mem
        case ToWait => st != Performed
        case InWait => st != Performed
        case ToCheck => st == Demanding
        case ToPerform(x) => st == Demanding && x == Slot(s.call)
        case ToReply(x) => st == Performed
        case ToTell => st == Replied)
  }

  /** What is on the wires. */
  ghost predicate Wires(s: Sys, st: Stage) {
    && s.toMem == (if st == Requested then [Wire(s.call)] else [])
    && (if st == Responded
        then |s.toCpu| == 1 && s.toCpu[0].kind == Resp && Answered(s.toCpu[0].c) && s.toCpu[0].ssyn
        else s.toCpu == [])
    && (st == Delivered ==> s.cpuBus.GotResp?)
  }

  /** The data: the store is what completed calls, and the current one once it has been
      served, leave behind; a read's value is that of the word it asked for. */
  ghost predicate Data(init: Store, s: Sys, st: Stage) {
    && Atomic(init, s.log)
    && (st != Nowhere ==> Defined(s.call) && ((OnWay(st) && st != Requested) || st == Finished ==> Local(s.call)))
    && (st == Lost ==> !IsLocalAddr(s.call.addr))
    && (var before := Replay(init, s.log);
        && s.store == (if Served(st) then Effect(before, s.call) else before)
        && (s.call.ReadWord? && Served(st) ==>
              var v := WordAt(before, s.call.addr);
              match st
              case Performed => s.mem.ToReply? && s.mem.x.value == v
              case Replied => s.slave.value == v
              case Answering => s.memBus.ToSend? && s.memBus.m.data == v
              case Responded => |s.toCpu| == 1 && s.toCpu[0].data == v
              case Delivered => s.cpuBus.GotResp? && s.cpuBus.m.data == v
              case _ => s.master.value == v))
  }

  /** Responses under way are responses to data transfers. */
  ghost predicate Kinds(s: Sys, st: Stage) {
    && (s.memBus.ToSend? ==> s.memBus.m.kind == Resp && Answered(s.memBus.m.c) && s.memBus.m.ssyn)
  }

  ghost predicate At(init: Store, s: Sys, st: Stage) {
    MasterSide(s, st) && MemorySide(s, st) && Wires(s, st) && Kinds(s, st) && Data(init, s, st)
  }

  ghost predicate Inv(init: Store, s: Sys) {
    exists st :: At(init, s, st)
  }

  lemma ReplayAppend(init: Store, log: seq<Done>, d: Done)
    requires Legal(log) && Local(d.call)
    ensures Legal(log + [d]) && Replay(init, log + [d]) == Effect(Replay(init, log), d.call)
  {
    assert (log + [d])[..|log|] == log;
  }

  lemma AtomicAppend(init: Store, log: seq<Done>, d: Done)
    requires Atomic(init, log) && Local(d.call) && d.status == R_DONE
    requires d.call.ReadWord? ==> d.data == WordAt(Replay(init, log), d.call.addr)
    ensures Atomic(init, log + [d])
  {
    var l := log + [d];
    forall k | 0 <= k < |l|
      ensures l[k].status == R_DONE && Legal(l[..k]) && Local(l[k].call)
      ensures l[k].call.ReadWord? ==> l[k].data == WordAt(Replay(init, l[..k]), l[k].call.addr)
    {
      if k < |log| {
        assert l[..k] == log[..k];
      } else {
        assert l[..k] == log;
      }
    }
  }

  lemma AskKeeps(init: Store, s: Sys, c: Call)
    requires At(init, s, Nowhere) && Enabled(s, Ask(c))
    ensures At(init, Step(s, Ask(c)), InMaster)
  {
    hide Replay, WordAt, PutWord, PutByte, Atomic;
  }

  /** The data do not depend on a caller about to wait, or on a memory that is not at work. */
  lemma DataAside(init: Store, s: Sys, t: Sys, st: Stage)
    requires Data(init, s, st) && t == s.(main := t.main, mem := t.mem, memBus := t.memBus)
    requires (st == Performed ==> t.mem == s.mem) && (st == Answering ==> t.memBus == s.memBus)
    ensures Data(init, t, st)
  {
  }

  lemma WaitKeeps(init: Store, s: Sys, st: Stage)
    requires At(init, s, st) && s.main == Posted
    ensures At(init, Step(s, Main), st)
  {
    hide Replay, WordAt, PutWord, PutByte, Atomic, MemorySide, Data;
    MemoryAside(s, Step(s, Main), st, st);
    DataAside(init, s, Step(s, Main), st);
  }

  lemma ReturnData(init: Store, s: Sys)
    requires Data(init, s, Finished) && s.main == Woken && s.master.op == R_DONE
    ensures Data(init, MainStep(s), Nowhere)
  {
    hide WordAt, PutWord, PutByte;
    var d := Done(s.call, s.master.value, s.master.op);
    ReplayAppend(init, s.log, d);
    AtomicAppend(init, s.log, d);
  }

  lemma MainKeeps(init: Store, s: Sys, st: Stage) returns (st': Stage)
    requires At(init, s, st) && Enabled(s, Main)
    ensures At(init, Step(s, Main), st')
  {
    hide Data;
    if s.main == Posted {
      st' := st;
      WaitKeeps(init, s, st);
    } else {
      st' := Nowhere;
      ReturnData(init, s);
    }
  }

  lemma MemoryAside(s: Sys, t: Sys, st: Stage, st': Stage)
    requires MemorySide(s, st) && t.call == s.call && t.slave == s.slave && t.memBus == s.memBus && t.mem == s.mem
    requires st == st' || (Elsewhere(st) && Elsewhere(st'))
    ensures MemorySide(t, st')
  {
  }

  /** The stages at which the memory's side has nothing of the transaction. */
  predicate Elsewhere(st: Stage) { st != Taken && !AtDevice(st) && st != Answering }

  lemma CpuLoadKeeps(init: Store, s: Sys, st: Stage) returns (st': Stage)
    requires At(init, s, st) && s.cpuBus == AtMaster
    ensures At(init, Step(s, CpuBus), st')
  {
    hide Replay, WordAt, PutWord, PutByte, Atomic, MemorySide;
    st' := if st == InMaster then InBuffer else st;
    MemoryAside(s, Step(s, CpuBus), st, st');
  }

  lemma CpuSendKeeps(init: Store, s: Sys, st: Stage) returns (st': Stage)
    requires At(init, s, st) && s.cpuBus == AtOp
    ensures At(init, Step(s, CpuBus), st')
  {
    hide Replay, WordAt, PutWord, PutByte, Atomic, MemorySide;
    st' := if st == InBuffer then Requested else st;
    MemoryAside(s, Step(s, CpuBus), st, st');
  }

  lemma CpuReceiveKeeps(init: Store, s: Sys, st: Stage) returns (st': Stage)
    requires At(init, s, st) && s.cpuBus == AtRecv
    ensures At(init, Step(s, CpuBus), st')
  {
    hide Replay, WordAt, PutWord, PutByte, Atomic, MemorySide;
    st' := if st == Responded then Delivered else st;
    MemoryAside(s, Step(s, CpuBus), st, st');
  }

  lemma CpuAnswerKeeps(init: Store, s: Sys, st: Stage) returns (st': Stage)
    requires At(init, s, st) && (s.cpuBus.GotResp? || s.cpuBus == ToSignal || s.cpuBus == ToClear)
    ensures At(init, Step(s, CpuBus), st')
  {
    hide Replay, WordAt, PutWord, PutByte, Atomic, MemorySide;
    st' := if s.cpuBus.GotResp? then Finished else st;
    MemoryAside(s, Step(s, CpuBus), st, st');
  }

  lemma CpuBusKeeps(init: Store, s: Sys, st: Stage) returns (st': Stage)
    requires At(init, s, st)
    ensures At(init, Step(s, CpuBus), st')
  {
    match s.cpuBus {
      case AtMaster => st' := CpuLoadKeeps(init, s, st);
      case AtOp => st' := CpuSendKeeps(init, s, st);
      case AtRecv => st' := CpuReceiveKeeps(init, s, st);
      case _ => st' := CpuAnswerKeeps(init, s, st);
    }
  }

  lemma RequestKeeps(init: Store, s: Sys, st: Stage) returns (st': Stage)
    requires At(init, s, st) && Enabled(s, MemBus) && (s.memBus == Idle || s.memBus.GotReq?)
    ensures At(init, Step(s, MemBus), st')
  {
    hide Replay, WordAt, PutWord, PutByte, Atomic;
    st' := if s.memBus.GotReq? then Demanding else if IsLocalAddr(s.call.addr) then Taken else Lost;
  }

  lemma AnswerKeeps(init: Store, s: Sys, st: Stage) returns (st': Stage)
    requires At(init, s, st) && Enabled(s, MemBus) && s.memBus != Idle && !s.memBus.GotReq?
    ensures At(init, Step(s, MemBus), st')
  {
    hide Replay, WordAt, PutWord, PutByte, Atomic;
    st' := if s.memBus.Awake? then Answering else if s.memBus.ToSend? then Responded else st;
  }

  lemma MemBusKeeps(init: Store, s: Sys, st: Stage) returns (st': Stage)
    requires At(init, s, st) && Enabled(s, MemBus)
    ensures At(init, Step(s, MemBus), st')
  {
    hide At, Step;
    if s.memBus == Idle || s.memBus.GotReq? {
      st' := RequestKeeps(init, s, st);
    } else {
      st' := AnswerKeeps(init, s, st);
    }
  }

  lemma MasterAside(s: Sys, t: Sys, st: Stage, st': Stage)
    requires MasterSide(s, st) && (AtDevice(st) || st == st')
    requires t.call == s.call && t.main == s.main && t.master == s.master && t.buffer == s.buffer
    requires t.cpuBus == s.cpuBus && t.reqIssued == s.reqIssued && (AtDevice(st') || st == st')
    ensures MasterSide(t, st')
  {
  }

  lemma PerformKeeps(init: Store, s: Sys, st: Stage)
    requires At(init, s, st) && Enabled(s, Mem) && s.mem.ToPerform?
    ensures At(init, Step(s, Mem), Performed)
  {
    hide Replay, WordAt, PutWord, PutByte, Atomic, MasterSide;
    MasterAside(s, Step(s, Mem), st, Performed);
  }

  lemma ReplyKeeps(init: Store, s: Sys, st: Stage)
    requires At(init, s, st) && Enabled(s, Mem) && s.mem.ToReply?
    ensures At(init, Step(s, Mem), Replied)
  {
    hide Replay, WordAt, PutWord, PutByte, Atomic, MasterSide;
    MasterAside(s, Step(s, Mem), st, Replied);
  }

  lemma MemSideRests(s: Sys, st: Stage)
    requires MemorySide(s, st) && Wires(s, st) && Kinds(s, st)
    requires Enabled(s, Mem) && !s.mem.ToReply? && !s.mem.ToPerform?
    ensures var t := MemStep(s); MemorySide(t, st) && Wires(t, st) && Kinds(t, st)
  {
  }

  lemma MemRests(init: Store, s: Sys, st: Stage)
    requires At(init, s, st) && Enabled(s, Mem) && !s.mem.ToReply? && !s.mem.ToPerform?
    ensures At(init, Step(s, Mem), st)
  {
    hide Replay, WordAt, PutWord, PutByte, Atomic, MasterSide, Data, Wires, Kinds;
    var t := Step(s, Mem);
    MemSideRests(s, st);
    MasterAside(s, t, st, st);
    DataAside(init, s, t, st);
  }

  lemma MemKeeps(init: Store, s: Sys, st: Stage) returns (st': Stage)
    requires At(init, s, st) && Enabled(s, Mem)
    ensures At(init, Step(s, Mem), st')
  {
    hide At, Step;
    match s.mem {
      case ToPerform(x) =>
        st' := Performed;
        PerformKeeps(init, s, st);
      case ToReply(x) =>
        st' := Replied;
        ReplyKeeps(init, s, st);
      case _ =>
        st' := st;
        MemRests(init, s, st);
    }
  }

  lemma StepKeeps(init: Store, s: Sys, e: Event)
    requires Inv(init, s) && Enabled(s, e)
    ensures Inv(init, Step(s, e))
  {
    var st :| At(init, s, st);
    var st': Stage;
    match e {
      case Ask(c) => AskKeeps(init, s, c); st' := InMaster;
      case Main => st' := MainKeeps(init, s, st);
      case CpuBus => st' := CpuBusKeeps(init, s, st);
      case MemBus => st' := MemBusKeeps(init, s, st);
      case Mem => st' := MemKeeps(init, s, st);
    }
    assert At(init, Step(s, e), st');
  }

  lemma {:induction false} RunKeeps(init: Store, s: Sys, es: seq<Event>, t: Sys)
    requires Inv(init, s) && IsRun(s, es, t)
    ensures Inv(init, t)
    decreases |es|
  {
    if es != [] {
      StepKeeps(init, s, es[0]);
      RunKeeps(init, Step(s, es[0]), es[1..], t);
    }
  }

  lemma StartKeeps(s: Sys)
    requires Start(s)
    ensures Inv(s.store, s)
  {
    assert At(s.store, s, Nowhere);
  }

  /** In every run, however the four threads interleave and whatever signals are lost:
      each call that returned was completed, each read returned the word that the calls
      completed before it had left at its address, and whenever no call is under way the
      store is exactly what the completed calls make of it. */
  lemma RefinesAtomicMemory(s: Sys, es: seq<Event>, t: Sys)
    requires Start(s) && IsRun(s, es, t)
    ensures Atomic(s.store, t.log)
    ensures t.main == Free ==> t.store == Replay(s.store, t.log)
  {
    StartKeeps(s);
    RunKeeps(s.store, s, es, t);
  }

  /** The places where a transaction can be, each at most once. */
  function Outstanding(s: Sys): nat {
    (if s.master.op != R_NONE && s.master.op != R_DONE then 1 else 0) + (if s.buffer.op != R_NONE then 1 else 0)
    + |s.toMem| + (if s.memBus.GotReq? then 1 else 0) + (if s.slave.op != R_NONE then 1 else 0)
    + (if s.memBus.ToSend? then 1 else 0) + |s.toCpu| + (if s.cpuBus.GotResp? then 1 else 0)
  }

  /** There is never more than one transaction, and none while the main thread is free. */
  lemma OneOutstanding(s: Sys, es: seq<Event>, t: Sys)
    requires Start(s) && IsRun(s, es, t)
    ensures Outstanding(t) <= if t.main == Free then 0 else 1
  {
    StartKeeps(s);
    RunKeeps(s.store, s, es, t);
  }

  /** Nothing is lost either: a call for an address of the memory is in exactly one place until
      its result lies in the master's slot. */
  lemma CallConserved(s: Sys, es: seq<Event>, t: Sys)
    requires Start(s) && IsRun(s, es, t) && t.main != Free && IsLocalAddr(t.call.addr)
    ensures Outstanding(t) == (if t.master.op == R_DONE then 0 else 1)
  {
    StartKeeps(s);
    RunKeeps(s.store, s, es, t);
  }

  /** The branches for an operation that did not complete are never taken: whoever is woken
      finds R_DONE, a woken memory always finds a demand it serves inside its store, and every
      answer carries the slave's acknowledgement. */
  lemma AlwaysCompleted(s: Sys, es: seq<Event>, t: Sys)
    requires Start(s) && IsRun(s, es, t)
    ensures t.main == Woken ==> t.master.op == R_DONE
    ensures t.memBus.Awake? ==> t.slave.op == R_DONE
    ensures t.mem == ToCheck ==> Demanded(t.slave.op) && InStore(t.slave)
    ensures t.mem.ToPerform? ==> InStore(t.mem.x)
    ensures t.toCpu != [] ==> t.toCpu[0].ssyn && (t.cpuBus == AtRecv ==> CpuBusStep(t).cpuBus.GotResp?)
  {
    StartKeeps(s);
    RunKeeps(s.store, s, es, t);
  }

  /** A read that returns after a write of the same word, with only reads in between,
      returns the word written. */
  lemma ReadAfterWrite(s: Sys, es: seq<Event>, t: Sys, i: nat, j: nat)
    requires Start(s) && IsRun(s, es, t) && i < j < |t.log|
    requires t.log[i].call.WriteWord? && t.log[j].call == ReadWord(t.log[i].call.addr)
    requires forall k :: i < k < j ==> t.log[k].call.ReadWord?
    ensures t.log[j].data == t.log[i].call.data
  {
    RefinesAtomicMemory(s, es, t);
    ReadsChangeNothing(s.store, t.log, i, j);
    var before := t.log[..i + 1];
    assert before[..|before| - 1] == t.log[..i];
    PutWordReads(Replay(s.store, t.log[..i]), t.log[i].call.addr, t.log[i].call.data, t.log[i].call.addr);
  }

  lemma {:induction false} ReadsChangeNothing(init: Store, log: seq<Done>, i: nat, j: nat)
    requires Legal(log) && i < j <= |log| && forall k :: i < k < j ==> log[k].call.ReadWord?
    ensures Replay(init, log[..j]) == Replay(init, log[..i + 1])
    decreases j
  {
    if j > i + 1 {
      assert log[..j][..j - 1] == log[..j - 1];
      ReadsChangeNothing(init, log, i, j - 1);
    }
  }
}
