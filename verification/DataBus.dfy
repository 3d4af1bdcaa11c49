/** The data bus: the request slots a device shares with its bus thread, and what the bus
    thread does with them, block by block. */
module DataBus {
  import opened Wrappers
  import opened MemoryDevice

  datatype Op = R_IN | R_INB | R_OUT | R_OUTB | R_BLOCK_IN | R_BLOCK_INB | R_BLOCK_OUT | R_BLOCK_OUTB
              | R_DONE | R_NONE

  datatype Xfer = Xfer(op: Op, addr: nat, value: word)

  datatype Kind = Req | Resp

  datatype Control = DATI | DATIP | DATO | DATOB | EMPTY

  /** A message between two bus threads.  A response's address is never looked at; `ssyn` is
      the slave's word that it has done what was asked, and means nothing in a request. */
  datatype BusMsg = BusMsg(kind: Kind, c: Control, addr: nat, data: word, ssyn: bool)

  const FREE := Xfer(R_NONE, 0, 0)

  // The master's main thread

  /** What the master's main thread can ask for. */
  datatype Call = ReadWord(addr: nat) | WriteWord(addr: nat, data: word) | WriteByte(addr: nat, b: byte)

  /** Filling the master slot. */
  function Post(master: Xfer, c: Call): Xfer {
    match c
    case ReadWord(a) => master.(op := R_IN, addr := a)
    case WriteWord(a, d) => Xfer(R_OUT, a, d)
    case WriteByte(a, b) => Xfer(R_OUTB, a, b)
  }

  /** The slot once its result has been taken. */
  function Emptied(master: Xfer): Xfer { master.(op := R_NONE) }

  // The bus thread on the master's side

  /** The top of the loop: a posted request moves from the shared slot to the buffer. */
  function LoadBuffer(master: Xfer, buffer: Xfer): (r: (Xfer, Xfer)) {
    match master.op
    case R_IN => (master.(op := R_NONE), buffer.(op := R_IN, addr := master.addr))
    case R_INB => (master.(op := R_NONE), buffer.(op := R_INB, addr := master.addr))
    case R_OUT => (master.(op := R_NONE), Xfer(R_OUT, master.addr, master.value))
    case R_OUTB => (master.(op := R_NONE), Xfer(R_OUTB, master.addr, master.value))
    case R_DONE => (master, buffer)
    case R_NONE => (master, buffer)
    case _ => (master.(op := R_NONE), buffer)
  }

  /** The request a buffered operation is sent as.  DATI carries no data. */
  function Outgoing(buffer: Xfer): Option<BusMsg> {
    match buffer.op
    case R_IN => Some(BusMsg(Req, DATI, buffer.addr, 0, false))
    case R_OUT => Some(BusMsg(Req, DATO, buffer.addr, buffer.value, false))
    case R_OUTB => Some(BusMsg(Req, DATOB, buffer.addr, buffer.value, false))
    case _ => None
  }

  predicate Answered(c: Control) { c == DATI || c == DATO || c == DATOB }

  // The bus thread on the memory's side

  predicate IsLocalAddr(addr: nat) { addr <= MEM_BYTES }

  /** What a request asks of the device, through the shared slot. */
  function Demand(m: BusMsg): Option<Xfer> {
    match m.c
    case DATI => Some(Xfer(R_BLOCK_IN, m.addr, 0))
    case DATO => Some(Xfer(R_BLOCK_OUT, m.addr, m.data))
    case DATOB => Some(Xfer(R_BLOCK_OUTB, m.addr, m.data))
    case _ => None
  }

  /** The response to a request once the device's slot has been looked at again. */
  function Response(slave: Xfer, c: Control): BusMsg {
    BusMsg(Resp, c, 0, if slave.op == R_DONE && c == DATI then slave.value else 0, slave.op == R_DONE)
  }

  /** The slot after the bus thread has looked: emptied, unless the device has not finished. */
  function Collected(slave: Xfer): Xfer {
    if slave.op == R_DONE then FREE else slave
  }

  // The memory thread

  predicate InStore(x: Xfer) {
    if x.op == R_BLOCK_OUTB then x.addr < MEM_BYTES else x.addr + 1 < MEM_BYTES
  }

  /** What the memory does for a demand: the store after, and the value it replies. */
  function Perform(s: Store, x: Xfer): (r: (Store, word))
    requires InStore(x)
  {
    match x.op
    case R_BLOCK_IN => (s, WordAt(s, x.addr))
    case R_BLOCK_OUT => (PutWord(s, x.addr, x.value), x.value)
    case R_BLOCK_OUTB => (PutByte(s, x.addr, x.value), x.value)
    case _ => (s, x.value)
  }

  /** The slot once the memory has replied. */
  function Replied(x: Xfer): Xfer { Xfer(R_DONE, x.addr, x.value) }

  predicate Demanded(op: Op) { op == R_BLOCK_IN || op == R_BLOCK_OUT || op == R_BLOCK_OUTB }

  /** The state a device shares with its bus thread. */
  class BusState {
    var master: Xfer
    var slave: Xfer

    constructor ()
      ensures master == FREE && slave == FREE
    {
      master, slave := FREE, FREE;
    }

    // The device's main thread, before and after it waits for the bus thread

    method PostRead(addr: nat)
      modifies this`master
      ensures master == Post(old(master), ReadWord(addr))
    {
      master := master.(op := R_IN, addr := addr);
    }

    method PostWrite(addr: nat, data: word)
      modifies this`master
      ensures master == Post(old(master), WriteWord(addr, data))
    {
      master := Xfer(R_OUT, addr, data);
    }

    method PostWriteByte(addr: nat, data: byte)
      modifies this`master
      ensures master == Post(old(master), WriteByte(addr, data))
    {
      master := Xfer(R_OUTB, addr, data);
    }

    method TakeResult() returns (data: word, status: Op)
      modifies this`master
      ensures data == old(master).value && status == old(master).op
      ensures master == Emptied(old(master))
    {
      data, status := master.value, master.op;
      master := master.(op := R_NONE);
    }

    // The device's slave side

    method DataBusCheck() returns (x: Xfer)
      ensures x == slave
    {
      x := slave;
    }

    /** The device's own record of the demand is emptied. */
    method DataBusReply(x: Xfer) returns (rest: Xfer)
      modifies this`slave
      ensures slave == Replied(x) && rest == FREE
    {
      slave := Xfer(R_DONE, x.addr, x.value);
      rest := FREE;
    }
  }

  /** The bus thread's own state; `sent` is everything it has written to its neighbours. */
  class DataBusThread {
    const bus: BusState
    var buffer: Xfer
    var reqIssued: bool
    var sent: seq<BusMsg>

    constructor (b: BusState)
      ensures bus == b && buffer == FREE && !reqIssued && sent == []
    {
      bus, buffer, reqIssued, sent := b, FREE, false, [];
    }

    method PollMaster()
      modifies this`buffer, bus`master
      ensures (bus.master, buffer) == LoadBuffer(old(bus.master), old(buffer))
    {
      var op := bus.master.op;
      if op != R_NONE && op != R_DONE {
        match op {
          case R_IN =>
            buffer := buffer.(op := R_IN, addr := bus.master.addr);
          case R_INB =>
            buffer := buffer.(op := R_INB, addr := bus.master.addr);
          case R_OUT =>
            buffer := Xfer(R_OUT, bus.master.addr, bus.master.value);
          case R_OUTB =>
            buffer := Xfer(R_OUTB, bus.master.addr, bus.master.value);
          case _ =>
        }
        bus.master := bus.master.(op := R_NONE);
      }
    }

    method ProcessOp()
      modifies this
      ensures buffer == old(buffer).(op := R_NONE)
      ensures sent == old(sent) + if Outgoing(old(buffer)).Some? then [Outgoing(old(buffer)).value] else []
      ensures reqIssued == (old(reqIssued) || Outgoing(old(buffer)).Some?)
    {
      match buffer.op {
        case R_IN =>
          sent := sent + [BusMsg(Req, DATI, buffer.addr, 0, false)];
          reqIssued := true;
        case R_OUT =>
          sent := sent + [BusMsg(Req, DATO, buffer.addr, buffer.value, false)];
          reqIssued := true;
        case R_OUTB =>
          sent := sent + [BusMsg(Req, DATOB, buffer.addr, buffer.value, false)];
          reqIssued := true;
        case _ =>
      }
      buffer := buffer.(op := R_NONE);
    }

    /** A response is put into the shared slot; the caller is woken if it was one. */
    method HandleResp(m: BusMsg) returns (wake: bool)
      modifies this`reqIssued, bus`master
      ensures wake == Answered(m.c)
      ensures bus.master == if wake then old(bus.master).(op := R_DONE, value := m.data) else old(bus.master)
      ensures reqIssued == (old(reqIssued) && !wake)
    {
      match m.c {
        case DATI => wake := true;
        case DATO => wake := true;
        case DATOB => wake := true;
        case _ => wake := false; return;
      }
      bus.master := bus.master.(value := m.data, op := R_DONE);
      reqIssued := false;
    }

    /** The first half of a request: the demand goes into the shared slot. */
    method PostDemand(m: BusMsg) returns (posted: bool)
      modifies bus`slave
      ensures posted == Demand(m).Some?
      ensures bus.slave == if posted then Demand(m).value else old(bus.slave)
    {
      posted := true;
      match m.c {
        case DATI => bus.slave := Xfer(R_BLOCK_IN, m.addr, 0);
        case DATO => bus.slave := Xfer(R_BLOCK_OUT, m.addr, m.data);
        case DATOB => bus.slave := Xfer(R_BLOCK_OUTB, m.addr, m.data);
        case _ => posted := false;
      }
    }

    /** The second half: the answer is taken out of the slot and sent. */
    method SendAnswer(c: Control) returns (completed: bool)
      requires Answered(c)
      modifies this`sent, bus`slave
      ensures completed == (old(bus.slave).op == R_DONE)
      ensures bus.slave == Collected(old(bus.slave))
      ensures sent == old(sent) + [Response(old(bus.slave), c)]
    {
      var data: word := 0;
      completed := false;
      if bus.slave.op == R_DONE {
        if c == DATI {
          data := bus.slave.value;
        }
        bus.slave := FREE;
        completed := true;
      }
      sent := sent + [BusMsg(Resp, c, 0, data, completed)];
    }
  }

  /** The memory's thread, once it has been woken. */
  method ServeDemand(bus: BusState, dev: MemDevice) returns (replied: bool)
    requires dev.store.Length == MEM_BYTES && InStore(bus.slave)
    modifies bus`slave, dev, dev.store
    ensures replied == Demanded(old(bus.slave).op)
    ensures !replied ==> bus.slave == old(bus.slave) && dev.Contents() == old(dev.Contents())
    ensures replied ==>
              var r := Perform(old(dev.Contents()), old(bus.slave));
              dev.Contents() == r.0 && bus.slave == Xfer(R_DONE, old(bus.slave).addr, r.1)
  {
    var x := bus.DataBusCheck();
    replied := true;
    match x.op {
      case R_BLOCK_IN =>
        var w := dev.ReadWord(x.addr);
        x := x.(value := w);
      case R_BLOCK_OUT =>
        dev.WriteWord(x.addr, x.value);
      case R_BLOCK_OUTB =>
        dev.WriteByte(x.addr, x.value);
      case _ =>
        replied := false;
        return;
    }
    x := bus.DataBusReply(x);
  }
}
