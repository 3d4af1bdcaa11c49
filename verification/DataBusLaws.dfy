/** The data bus's single transactions from end to end, the ones no caller of `DataBusSystem` makes
    included. */
module DataBusLaws {
  import opened Wrappers
  import opened MemoryDevice
  import opened DataBus
  import opened DataBusSystem

  /** A posted operation on its way to the wire: read or write of a word or byte moves to the buffer,
      with its data only for writes; every operation leaves the slot but a result that has not
      been collected; what the slot holds besides stays. */
  lemma PostedMoves(master: Xfer, buffer: Xfer)
    ensures var r := LoadBuffer(master, buffer);
            var moves := master.op in {R_IN, R_INB, R_OUT, R_OUTB};
            && r.0.op == (if master.op == R_DONE then R_DONE else R_NONE)
            && r.0.addr == master.addr && r.0.value == master.value
            && r.1.op == (if moves then master.op else buffer.op)
            && r.1.addr == (if moves then master.addr else buffer.addr)
            && r.1.value == if master.op in {R_OUT, R_OUTB} then master.value else buffer.value
  {
  }

  /** A call of each kind, from posting it to the wire: one request with its address, with data for a
      write, and a slot and a buffer that are free again. */
  lemma CallIsSent(master: Xfer, buffer: Xfer, c: Call)
    requires master.op == R_NONE && buffer.op == R_NONE
    ensures var r := LoadBuffer(Post(master, c), buffer);
            && r.0.op == R_NONE && r.1.(op := R_NONE).op == R_NONE
            && Outgoing(r.1) == Some(match c
                 case ReadWord(a) => BusMsg(Req, DATI, a, 0, false)
                 case WriteWord(a, d) => BusMsg(Req, DATO, a, d, false)
                 case WriteByte(a, b) => BusMsg(Req, DATOB, a, b, false))
  {
  }

  /** A read leaves the data in the slot as they were, and collecting a result too. */
  lemma SlotDataStay(master: Xfer, a: nat)
    ensures Post(master, ReadWord(a)).value == master.value
    ensures Emptied(master).value == master.value && Emptied(master).addr == master.addr && Emptied(master).op == R_NONE
  {
  }

  /** Whatever operation is in the buffer, a request is sent exactly for a word read and the two
      writes: a byte read that has been posted is never sent, and so never answered. */
  lemma OnlyThreeAreSent(buffer: Xfer)
    ensures Outgoing(buffer).Some? <==> buffer.op in {R_IN, R_OUT, R_OUTB}
  {
  }

  /** The memory takes requests for addresses of 16 bits. */
  lemma SixteenBits(addr: nat)
    ensures IsLocalAddr(addr) <==> addr < 0x1_0000
  {
  }

  /** A request at the memory, from the wire to the wire: the store as read or written, one answer that
      acknowledges it and carries the word for a read, and the slot free again. */
  lemma RequestIsServed(s: Store, m: BusMsg)
    requires Answered(m.c) && m.addr + 1 < MEM_BYTES
    ensures Demand(m).Some? && Demanded(Demand(m).value.op) && InStore(Demand(m).value)
    ensures var x := Demand(m).value;
            var r := Perform(s, x);
            var done := Replied(x.(value := r.1));
            && r.0 == (if m.c == DATI then s
                       else if m.c == DATO then PutWord(s, m.addr, m.data) else PutByte(s, m.addr, m.data))
            && done == Xfer(R_DONE, m.addr, if m.c == DATI then WordAt(s, m.addr) else m.data)
            && Response(done, m.c) == BusMsg(Resp, m.c, 0, if m.c == DATI then WordAt(s, m.addr) else 0, true)
            && Collected(done) == FREE
  {
  }

  /** A request of another kind is left alone, and an operation that is not done is answered without
      acknowledgement and without data, and stays in the slot. */
  lemma OthersNotServed(m: BusMsg, slave: Xfer, c: Control)
    ensures !Answered(m.c) ==> Demand(m) == None
    ensures slave.op != R_DONE ==> Response(slave, c) == BusMsg(Resp, c, 0, 0, false) && Collected(slave) == slave
  {
  }

  /** A response that nobody expects, or of another kind, is dropped, and so is anything at the memory
      but a request for one of its addresses. */
  lemma OthersDropped(s: Sys)
    ensures s.cpuBus == AtRecv && s.toCpu != []
            && !(s.reqIssued && s.toCpu[0].kind == Resp && Answered(s.toCpu[0].c)) ==>
              CpuBusStep(s) == s.(toCpu := s.toCpu[1..], cpuBus := AtMaster)
    ensures s.memBus == Idle && s.toMem != [] && !(s.toMem[0].kind == Req && s.toMem[0].addr < 0x1_0000) ==>
              MemBusStep(s) == s.(toMem := s.toMem[1..])
  {
  }
}
