/** A master and the memory on the data bus: four threads, each taking one locked block
    at a time, that wait only for signals.  A signal nobody waits for is lost. */
module DataBusSystem {
  import opened MemoryDevice
  import opened DataBus

  /** A call that has returned, with the data and status it found. */
  datatype Done = Done(call: Call, data: word, status: Op)

  /** The main thread: free, its request posted, waiting for the signal, or woken. */
  datatype MainPc = Free | Posted | Waiting | Woken

  /** The master's bus thread, between the blocks of its loop. */
  datatype BusPc = AtMaster | AtOp | AtRecv | GotResp(m: BusMsg) | ToSignal | ToClear

  /** The memory's bus thread. */
  datatype MemBusPc = Idle | GotReq(m: BusMsg) | ToWake(c: Control) | ToSleep(c: Control)
                    | Sleeping(c: Control) | Awake(c: Control) | ToSend(m: BusMsg)

  /** The memory's main thread. */
  datatype MemPc = ToWait | InWait | ToCheck | ToPerform(x: Xfer) | ToReply(x: Xfer) | ToTell

  datatype Sys = Sys(call: Call, main: MainPc, cpuBus: BusPc, memBus: MemBusPc, mem: MemPc,
                     master: Xfer, buffer: Xfer, reqIssued: bool, slave: Xfer,
                     toMem: seq<BusMsg>, toCpu: seq<BusMsg>, store: Store, log: seq<Done>)

  datatype Event = Ask(call: Call) | Main | CpuBus | MemBus | Mem

  /** The addresses for which the memory stays inside its store: words up to 65533, bytes
      up to 65534.  Beyond 65535 no device answers. */
  predicate Defined(c: Call) {
    c.addr > MEM_BYTES || if c.WriteByte? then c.addr < MEM_BYTES else c.addr + 1 < MEM_BYTES
  }

  predicate Start(s: Sys) {
    && s.main == Free && s.cpuBus == AtMaster && s.memBus == Idle && s.mem == ToWait
    && s.master == FREE && s.buffer == FREE && !s.reqIssued && s.slave == FREE
    && s.toMem == [] && s.toCpu == [] && s.log == []
  }

  predicate Enabled(s: Sys, e: Event) {
    match e
    case Ask(c) => s.main == Free && Defined(c)
    case Main => s.main == Posted || s.main == Woken
    case CpuBus => true
    case MemBus => !s.memBus.Sleeping? && (s.memBus == Idle ==> s.toMem != [])
    case Mem => s.mem != InWait && (s.mem.ToPerform? ==> InStore(s.mem.x))
  }

  function MainStep(s: Sys): Sys {
    if s.main == Posted then s.(main := Waiting)
    else s.(main := Free, master := Emptied(s.master),
            log := s.log + [Done(s.call, s.master.value, s.master.op)])
  }

  function CpuBusStep(s: Sys): Sys {
    match s.cpuBus
    case AtMaster =>
      var r := LoadBuffer(s.master, s.buffer);
      s.(master := r.0, buffer := r.1, cpuBus := AtOp)
    case AtOp =>
      var out := Outgoing(s.buffer);
      var t := s.(buffer := s.buffer.(op := R_NONE), cpuBus := AtRecv);
      if out.Some? then t.(toMem := s.toMem + [out.value], reqIssued := true) else t
    case AtRecv =>
      if s.toCpu == [] then s.(cpuBus := AtMaster)
      else
        var m := s.toCpu[0];
        s.(toCpu := s.toCpu[1..],
           cpuBus := if m.kind == Resp && s.reqIssued && Answered(m.c) then GotResp(m) else AtMaster)
    case GotResp(m) => s.(master := s.master.(value := m.data, op := R_DONE), cpuBus := ToSignal)
    case ToSignal => s.(main := if s.main == Waiting then Woken else s.main, cpuBus := ToClear)
    case ToClear => s.(reqIssued := false, cpuBus := AtMaster)
  }

  function MemBusStep(s: Sys): Sys
    requires Enabled(s, MemBus)
  {
    match s.memBus
    case Idle =>
      var m := s.toMem[0];
      s.(toMem := s.toMem[1..], memBus := if m.kind == Req && IsLocalAddr(m.addr) then GotReq(m) else Idle)
    case GotReq(m) =>
      if Demand(m).None? then s.(memBus := Idle) else s.(slave := Demand(m).value, memBus := ToWake(m.c))
    case ToWake(c) => s.(mem := if s.mem == InWait then ToCheck else s.mem, memBus := ToSleep(c))
    case ToSleep(c) => s.(memBus := Sleeping(c))
    case Awake(c) => s.(slave := Collected(s.slave), memBus := ToSend(Response(s.slave, c)))
    case ToSend(m) => s.(toCpu := s.toCpu + [m], memBus := Idle)
  }

  function MemStep(s: Sys): Sys
    requires Enabled(s, Mem)
  {
    match s.mem
    case ToWait => s.(mem := InWait)
    case ToCheck => s.(mem := if Demanded(s.slave.op) then ToPerform(s.slave) else ToWait)
    case ToPerform(x) =>
      var r := Perform(s.store, x);
      s.(store := r.0, mem := ToReply(x.(value := r.1)))
    case ToReply(x) => s.(slave := Replied(x), mem := ToTell)
    case ToTell => s.(memBus := if s.memBus.Sleeping? then Awake(s.memBus.c) else s.memBus, mem := ToWait)
  }

  function Step(s: Sys, e: Event): Sys
    requires Enabled(s, e)
  {
    match e
    case Ask(c) => s.(call := c, main := Posted, master := Post(s.master, c))
    case Main => MainStep(s)
    case CpuBus => CpuBusStep(s)
    case MemBus => MemBusStep(s)
    case Mem => MemStep(s)
  }

  ghost predicate IsRun(s: Sys, es: seq<Event>, t: Sys)
    decreases |es|
  {
    if es == [] then t == s
    else Enabled(s, es[0]) && IsRun(Step(s, es[0]), es[1..], t)
  }

  // The memory as an atomic object

  function Effect(s: Store, c: Call): Store
    requires Defined(c) && IsLocalAddr(c.addr)
  {
    match c
    case ReadWord(_) => s
    case WriteWord(a, d) => PutWord(s, a, d)
    case WriteByte(a, b) => PutByte(s, a, b)
  }

  predicate Legal(log: seq<Done>) {
    forall k :: 0 <= k < |log| ==> Defined(log[k].call) && IsLocalAddr(log[k].call.addr)
  }

  /** What completed calls leave behind, one after the other. */
  function Replay(s: Store, log: seq<Done>): Store
    requires Legal(log)
    decreases |log|
  {
    if log == [] then s else Effect(Replay(s, log[..|log| - 1]), log[|log| - 1].call)
  }

  /** Every call completed, and every read returned what the calls before it had left. */
  ghost predicate Atomic(init: Store, log: seq<Done>) {
    && Legal(log)
    && forall k :: 0 <= k < |log| ==>
         log[k].status == R_DONE
         && (log[k].call.ReadWord? ==> log[k].data == WordAt(Replay(init, log[..k]), log[k].call.addr))
  }
}
