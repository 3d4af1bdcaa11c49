/** When a call on the data bus can still return: exactly if none of its signals was missed. */
module DataBusProgress {
  import opened MemoryDevice
  import opened DataBus
  import opened DataBusSystem
  import opened DataBusRefinement

  /** The stage of the call under way, read off the slots, buffers and messages. */
  function StageOf(s: Sys): Stage {
    if s.main == Free then Nowhere
    else if s.master.op != R_NONE && s.master.op != R_DONE then InMaster
    else if s.buffer.op != R_NONE then InBuffer
    else if s.toMem != [] then Requested
    else if s.memBus.GotReq? then Taken
    else if s.slave.op == R_DONE then Replied
    else if s.slave.op != R_NONE then (if s.mem.ToReply? then Performed else Demanding)
    else if s.memBus.ToSend? then Answering
    else if s.toCpu != [] then Responded
    else if s.cpuBus.GotResp? then Delivered
    else if s.master.op == R_DONE then Finished
    else Lost
  }

  lemma StageIs(init: Store, s: Sys, st: Stage)
    requires At(init, s, st)
    ensures StageOf(s) == st
  {
    hide Data;
    SlotOps(s.call);
  }

  lemma SlotOps(c: Call)
    ensures Slot(c).op != R_NONE && Slot(c).op != R_DONE
  {
  }

  /** A signal of the call was given while the thread it was for did not wait: the result's to
      the caller, the demand's to the memory, or the reply's to the memory's bus thread. */
  predicate Missed(s: Sys) {
    || (s.master.op == R_DONE && (s.main == Posted || s.main == Waiting) && s.cpuBus != ToSignal)
    || (Demanded(s.slave.op) && Sleeps(s.memBus) && (s.mem == ToWait || s.mem == InWait))
    || (s.slave.op == R_DONE && Sleeps(s.memBus) && s.mem != ToTell)
  }

  predicate Sleeps(pc: MemBusPc) { pc.ToSleep? || pc.Sleeping? }

  /** The master's bus thread expects a response exactly from the moment its request is sent until it
      has dealt with the response. */
  lemma ExpectsResponse(s: Sys, es: seq<Event>, t: Sys)
    requires Start(s) && IsRun(s, es, t)
    ensures t.reqIssued <==> OnWay(StageOf(t)) || StageOf(t) == Lost || t.cpuBus == ToSignal || t.cpuBus == ToClear
  {
    StartKeeps(s);
    RunKeeps(s.store, s, es, t);
    hide Data;
    var st :| At(s.store, t, st);
    StageIs(s.store, t, st);
  }

  // Missed for good

  /** A call whose signal was missed never returns. */
  lemma MissedStays(init: Store, s: Sys, st: Stage, e: Event)
    requires At(init, s, st) && Missed(s) && s.main != Free && Enabled(s, e)
    ensures Missed(Step(s, e)) && Step(s, e).main != Free && Step(s, e).log == s.log
  {
    hide Data, MemorySide, MasterSide;
    if st == Finished {
      MissedResultStays(init, s, e);
    } else {
      MissedDeviceStays(init, s, st, e);
    }
  }

  lemma MissedResultStays(init: Store, s: Sys, e: Event)
    requires At(init, s, Finished) && Missed(s) && Enabled(s, e)
    ensures Missed(Step(s, e)) && Step(s, e).main != Free && Step(s, e).log == s.log
  {
    hide Data;
    MemoryRest(init, s, Finished);
    hide MemorySide;
  }

  lemma MissedDeviceStays(init: Store, s: Sys, st: Stage, e: Event)
    requires At(init, s, st) && Missed(s) && s.main != Free && Enabled(s, e) && st != Finished
    ensures Missed(Step(s, e)) && Step(s, e).main != Free && Step(s, e).log == s.log
  {
    hide Data, Wires;
  }

  lemma {:induction false} MissedForGood(init: Store, s: Sys, es: seq<Event>, t: Sys)
    requires Inv(init, s) && Missed(s) && s.main != Free && IsRun(s, es, t)
    ensures t.main != Free && t.log == s.log
    decreases |es|
  {
    hide At, Missed, Step, Enabled;
    if es != [] {
      var st :| At(init, s, st);
      MissedStays(init, s, st, es[0]);
      DataBusRefinement.StepKeeps(init, s, es[0]);
      MissedForGood(init, Step(s, es[0]), es[1..], t);
    }
  }

  // Otherwise it can return

  /** The event that brings the call on. */
  function Forward(s: Sys): Event {
    if s.main == Posted || s.main == Woken then Main
    else
      match StageOf(s)
      case Requested => MemBus
      case Taken => MemBus
      case Demanding => if s.memBus.ToWake? then (if s.mem == ToWait then Mem else MemBus) else FromDevice(s)
      case Performed => FromDevice(s)
      case Replied => if s.memBus.Awake? then MemBus else FromDevice(s)
      case Answering => MemBus
      case _ => CpuBus
  }

  /** The bus thread has to be asleep before the memory replies. */
  function FromDevice(s: Sys): Event { if s.memBus.ToSleep? then MemBus else Mem }

  /** An upper bound on the events the call still needs. */
  function Distance(s: Sys): nat {
    (if s.main == Posted then 1 else 0) +
    match StageOf(s)
    case Nowhere => 0
    case Finished => if s.main == Woken then 1 else 2
    case Delivered => 3
    case Responded => 4 + (match s.cpuBus case AtMaster => 2 case AtOp => 1 case _ => 0)
    case Answering => 7
    case Replied => 8 + (if s.memBus.ToSleep? then 2 else if s.memBus.Sleeping? then 1 else 0)
    case Performed => 11 + (if s.memBus.ToSleep? then 1 else 0)
    case Demanding =>
      13 + (if s.memBus.ToWake? then (if s.mem == ToWait then 5 else 4)
            else (if s.memBus.ToSleep? then 1 else 0) + (if s.mem == ToCheck then 1 else 0))
    case Taken => 19
    case Requested => 20
    case InBuffer => 21
    case InMaster => 22 + (match s.cpuBus case AtOp => 2 case AtMaster => 0 case _ => 1)
    case Lost => 0
  }

  lemma FarthestIs(s: Sys)
    ensures Distance(s) <= 25
  {
  }

  /** What one event of `Forward` does. */
  ghost predicate Advances(s: Sys) {
    && Enabled(s, Forward(s))
    && (var t := Step(s, Forward(s));
        && t.call == s.call && !Missed(t) && Distance(t) < Distance(s)
        && (t.main != Free ==> t.log == s.log)
        && (t.main == Free ==>
              |t.log| == |s.log| + 1 && t.log[..|s.log|] == s.log && t.log[|s.log|].call == s.call))
  }

  lemma MainAdvances(init: Store, s: Sys, st: Stage)
    requires At(init, s, st) && !Missed(s) && (s.main == Posted || s.main == Woken) && st != Lost
    ensures Advances(s)
  {
    hide Data, Start;
    StageIs(init, s, st);
  }

  lemma MasterAdvances(init: Store, s: Sys, st: Stage)
    requires At(init, s, st) && !Missed(s) && s.main == Waiting
    requires st == InMaster || st == InBuffer || st == Responded || st == Delivered || st == Finished
    ensures Advances(s)
  {
    hide Data, MemorySide;
    StageIs(init, s, st);
    MemoryRest(init, s, st);
  }

  /** The memory's side while it has nothing of the call. */
  lemma MemoryRest(init: Store, s: Sys, st: Stage)
    requires At(init, s, st) && st != Taken && !AtDevice(st) && st != Answering
    ensures s.slave == FREE && s.memBus == Idle && (s.mem == ToWait || s.mem == InWait)
  {
    hide Data;
  }

  lemma RequestAdvances(init: Store, s: Sys, st: Stage)
    requires At(init, s, st) && !Missed(s) && s.main == Waiting && (st == Requested || st == Taken || st == Answering)
    requires IsLocalAddr(s.call.addr)
    ensures Advances(s)
  {
    hide Data;
    StageIs(init, s, st);
  }

  lemma DemandAdvances(init: Store, s: Sys, st: Stage)
    requires At(init, s, st) && !Missed(s) && s.main == Waiting && st == Demanding
    requires s.mem.ToPerform? ==> InStore(s.mem.x)
    ensures Advances(s)
  {
    hide Data, Perform, Wires;
    StageIs(init, s, st);
    Elsewise(init, s, st);
  }

  lemma ReplyAdvances(init: Store, s: Sys, st: Stage)
    requires At(init, s, st) && !Missed(s) && s.main == Waiting && (st == Performed || st == Replied)
    ensures Advances(s)
  {
    hide Data, Perform, Wires;
    StageIs(init, s, st);
    Elsewise(init, s, st);
  }

  /** The master's side and the wires while the call is with the memory. */
  lemma Elsewise(init: Store, s: Sys, st: Stage)
    requires At(init, s, st) && AtDevice(st)
    ensures s.main != Free && s.master.op == R_NONE && s.buffer.op == R_NONE && s.toMem == [] && s.toCpu == []
    ensures !s.cpuBus.GotResp?
  {
    hide Data, MemorySide;
  }

  lemma DemandFits(init: Store, s: Sys, st: Stage)
    requires At(init, s, st) && AtDevice(st)
    ensures s.mem.ToPerform? ==> InStore(s.mem.x)
  {
    hide Replay, WordAt, PutWord, PutByte, Atomic;
  }

  lemma SomethingAdvances(init: Store, s: Sys)
    requires Inv(init, s) && !Missed(s) && s.main != Free && IsLocalAddr(s.call.addr)
    ensures Advances(s)
  {
    hide At, Missed, Advances;
    var st :| At(init, s, st);
    StageIs(init, s, st);
    NotLost(init, s, st);
    if s.main != Waiting {
      MainAdvances(init, s, st);
    } else if st == Demanding {
      DemandFits(init, s, st);
      DemandAdvances(init, s, st);
    } else if AtDevice(st) {
      ReplyAdvances(init, s, st);
    } else if st == Requested || st == Taken || st == Answering {
      RequestAdvances(init, s, st);
    } else {
      MasterAdvances(init, s, st);
    }
  }

  lemma NotLost(init: Store, s: Sys, st: Stage)
    requires At(init, s, st) && IsLocalAddr(s.call.addr)
    ensures st != Lost && (st == Nowhere <==> s.main == Free)
  {
  }

  lemma {:induction false} Returns(init: Store, s: Sys) returns (es: seq<Event>, t: Sys)
    requires Inv(init, s) && !Missed(s) && s.main != Free && IsLocalAddr(s.call.addr)
    ensures IsRun(s, es, t) && |es| <= Distance(s) && t.main == Free
    ensures |t.log| == |s.log| + 1 && t.log[..|s.log|] == s.log && t.log[|s.log|].call == s.call
    decreases Distance(s)
  {
    hide Missed, Step, Enabled, Distance, At, Forward;
    SomethingAdvances(init, s);
    var e := Forward(s);
    var u := Step(s, e);
    DataBusRefinement.StepKeeps(init, s, e);
    if u.main == Free {
      es, t := [e], u;
      assert IsRun(u, [], u);
    } else {
      var fs;
      fs, t := Returns(init, u);
      es := [e] + fs;
      assert es[1..] == fs;
    }
  }

  /** In every reachable state with a call for the memory under way, the call can still return,
      within 25 events, if and only if none of its signals was missed. */
  lemma ReturnsExactly(s: Sys, es: seq<Event>, t: Sys)
    requires Start(s) && IsRun(s, es, t) && t.main != Free && IsLocalAddr(t.call.addr)
    ensures !Missed(t) <==> exists fs, u :: IsRun(t, fs, u) && |fs| <= 25 && u.main == Free && |u.log| == |t.log| + 1
    ensures Missed(t) ==> forall fs, u :: IsRun(t, fs, u) ==> u.main != Free && u.log == t.log
  {
    hide Missed, At;
    StartKeeps(s);
    RunKeeps(s.store, s, es, t);
    if Missed(t) {
      forall fs, u | IsRun(t, fs, u) ensures u.main != Free && u.log == t.log {
        MissedForGood(s.store, t, fs, u);
      }
    } else {
      FarthestIs(t);
      var fs, u := Returns(s.store, t);
    }
  }

  /** In particular every call for the memory, of each kind, has a run that completes it, from
      every reachable state in which the main thread is free. */
  lemma EveryCallCanReturn(s: Sys, es: seq<Event>, t: Sys, c: Call) returns (fs: seq<Event>, u: Sys)
    requires Start(s) && IsRun(s, es, t) && t.main == Free && Defined(c) && IsLocalAddr(c.addr)
    ensures IsRun(t, fs, u) && u.main == Free && |u.log| == |t.log| + 1
    ensures u.log[..|t.log|] == t.log && u.log[|t.log|].call == c
  {
    hide At, Forward, Distance;
    StartKeeps(s);
    RunKeeps(s.store, s, es, t);
    var st :| At(s.store, t, st);
    NotYetMissed(s.store, t, st, c);
    DataBusRefinement.StepKeeps(s.store, t, Ask(c));
    var a := Step(t, Ask(c));
    fs, u := Returns(s.store, a);
    assert ([Ask(c)] + fs)[1..] == fs;
    fs := [Ask(c)] + fs;
  }

  lemma NotYetMissed(init: Store, s: Sys, st: Stage, c: Call)
    requires At(init, s, st) && s.main == Free && Defined(c)
    ensures !Missed(Step(s, Ask(c)))
  {
    hide Data;
  }
}
