/** A whole run of the processor: the loop that fills memory with one word, counting r0 down. */
module CountedLoop {
  import opened Wrappers
  import opened MemoryDevice
  import opened Cpu

  // D:  MOV $k,(r1)+ ; DEC r0 ; BNE D

  const MOV_IMMEDIATE_R1: word := 0x15D1
  const DEC_R0: word := 0x0AC0
  const BNE_BACK: word := 0x02FC
  const CODE_BYTES: nat := 8
  const LOW: nat := 0x200

  predicate Program(s: Store, d: nat, k: word) {
    && d + CODE_BYTES <= LOW
    && WordAt(s, d) == MOV_IMMEDIATE_R1 && WordAt(s, d + 2) == k
    && WordAt(s, d + 4) == DEC_R0 && WordAt(s, d + 6) == BNE_BACK
  }

  lemma MovSource(c: State)
    requires c.ir == MOV_IMMEDIATE_R1 && c.r[PC] + 2 <= LOW
    ensures Source(c) == Some(c.(r := c.r[PC := c.r[PC] + 2], src := c.r[PC]))
  {
  }

  lemma MovDestination(c: State)
    requires c.ir == MOV_IMMEDIATE_R1 && c.r[1] + 2 <= LOW
    ensures Destination(c) == Some(c.(r := c.r[1 := c.r[1] + 2], dest := c.r[1]))
  {
  }

  lemma DecDestination(c: State)
    requires c.ir == DEC_R0
    ensures Destination(c) == Some(c.(dest := RegisterToBus(0)))
  {
  }

  /** The state in which an instruction word is executed. */
  function Opened(c: State, w: word): State
    requires c.r[PC] + 2 <= LOW
  {
    c.(ir := w, r := c.r[PC := c.r[PC] + 2])
  }

  /** An instruction word below 01000 is fetched, and the program counter steps over it. */
  lemma FetchStep(c: State, w: word)
    requires c.r[PC] + 2 <= LOW && WordAt(c.ram, c.r[PC]) == w
    ensures Step(c) == Exec(Opened(c, w))
  {
    hide Exec;
    OnlyLowMemoryAnswers(c.r[PC]);
  }

  lemma DeliverToMemory(c: State, w: word)
    requires c.dest + 2 <= LOW
    ensures Deliver(c, w) == Some(c.(alu := w, ram := PutWord(c.ram, c.dest, w), r := c.r[PSW := Flags(c.r[PSW], w)]))
  {
    OnlyLowMemoryAnswers(c.dest);
  }

  lemma DeliverToR0(c: State, w: word)
    requires c.dest == RegisterToBus(0)
    ensures Deliver(c, w) == Some(c.(alu := w, r := c.r[0 := w][PSW := Flags(c.r[PSW], w)]))
  {
  }

  lemma ExecIsMov(c: State)
    requires c.ir == MOV_IMMEDIATE_R1
    ensures Exec(c) == Mov(c)
  {
  }

  lemma ExecIsDec(c: State)
    requires c.ir == DEC_R0
    ensures Exec(c) == Decrement(c)
  {
  }

  lemma MovIs(c: State, s: State, d: State, k: word)
    requires Source(c) == Some(s) && Destination(s) == Some(d) && d.src + 2 <= LOW && WordAt(d.ram, d.src) == k
    ensures Mov(c) == Deliver(d, k)
  {
    OnlyLowMemoryAnswers(d.src);
  }

  lemma DecIs(c: State, d: State)
    requires Destination(c) == Some(d) && d.dest == RegisterToBus(0)
    ensures Decrement(c) == Deliver(d, Plus(d.r[0], -1))
  {
  }

  // The state after each instruction of the loop

  /** The effect of the move on the state its instruction word was fetched into. */
  function Moved(f: State, k: word): State
    requires f.r[PC] + 2 <= LOW && f.r[1] + 2 <= LOW
  {
    State(f.r[PC := f.r[PC] + 2][1 := f.r[1] + 2][PSW := Flags(f.r[PSW], k)], k, MOV_IMMEDIATE_R1,
          f.r[PC], f.r[1], f.halted, PutWord(f.ram, f.r[1], k))
  }

  function AfterMov(c: State, k: word): State
    requires c.r[PC] + 4 <= LOW && c.r[1] + 2 <= LOW
  {
    Moved(Opened(c, MOV_IMMEDIATE_R1), k)
  }

  function AfterDec(c: State): State
    requires c.r[PC] + 2 <= LOW
  {
    var w := Plus(c.r[0], -1);
    c.(r := c.r[PC := c.r[PC] + 2][0 := w][PSW := Flags(c.r[PSW], w)], alu := w, ir := DEC_R0, dest := RegisterToBus(0))
  }

  lemma MovWhole(f: State, k: word)
    requires f.ir == MOV_IMMEDIATE_R1 && f.r[PC] + 2 <= LOW && f.r[1] + 2 <= LOW && WordAt(f.ram, f.r[PC]) == k
    ensures Exec(f) == Some(Moved(f, k))
  {
    ExecIsMov(f);
    MovSource(f);
    var s := f.(r := f.r[PC := f.r[PC] + 2], src := f.r[PC]);
    MovDestination(s);
    var d := s.(r := s.r[1 := s.r[1] + 2], dest := s.r[1]);
    MovIs(f, s, d, k);
    DeliverToMemory(d, k);
  }

  lemma MovStep(c: State, k: word)
    requires c.r[PC] + 4 <= LOW && c.r[1] + 2 <= LOW
    requires WordAt(c.ram, c.r[PC]) == MOV_IMMEDIATE_R1 && WordAt(c.ram, c.r[PC] + 2) == k
    ensures Step(c) == Some(AfterMov(c, k))
  {
    FetchStep(c, MOV_IMMEDIATE_R1);
    MovWhole(Opened(c, MOV_IMMEDIATE_R1), k);
  }

  lemma DecStep(c: State)
    requires c.r[PC] + 2 <= LOW && WordAt(c.ram, c.r[PC]) == DEC_R0
    ensures Step(c) == Some(AfterDec(c))
  {
    FetchStep(c, DEC_R0);
    var f := c.(ir := DEC_R0, r := c.r[PC := c.r[PC] + 2]);
    ExecIsDec(f);
    DecDestination(f);
    DecIs(f, f.(dest := RegisterToBus(0)));
    DeliverToR0(f.(dest := RegisterToBus(0)), Plus(c.r[0], -1));
  }

  function AfterBne(c: State): State
    requires 6 <= c.r[PC] && c.r[PC] + 2 <= LOW
  {
    var zero := c.r[PSW] / ZERO_FLAG % 2 == 1;
    c.(r := c.r[PC := if zero then c.r[PC] + 2 else c.r[PC] - 6], alu := if zero then ZERO_FLAG else 0, ir := BNE_BACK)
  }

  lemma BneStep(c: State)
    requires 6 <= c.r[PC] && c.r[PC] + 2 <= LOW && WordAt(c.ram, c.r[PC]) == BNE_BACK
    ensures Step(c) == Some(AfterBne(c))
  {
    FetchStep(c, BNE_BACK);
    var f := Opened(c, BNE_BACK);
    assert Exec(f) == Some(BranchNotEqual(f));
    assert BranchOffset(BNE_BACK) == -4;
    assert f.r[PC := c.r[PC] - 6] == c.r[PC := c.r[PC] - 6];
  }

  lemma ZeroSet(psw: word, on: bool)
    ensures var p := SetFlag(psw, ZERO_FLAG, on);
            p / 4 % 2 == (if on then 1 else 0) && p / 8 == psw / 8 && p % 4 == psw % 4
  {
  }

  lemma NegativeSet(psw: word, on: bool)
    ensures var p := SetFlag(psw, NEGATIVE_FLAG, on);
            p / 8 % 2 == (if on then 1 else 0) && p / 16 == psw / 16 && p % 8 == psw % 8
  {
    var p := SetFlag(psw, NEGATIVE_FLAG, on);
    assert p / 8 == psw / 8 || p / 8 == psw / 8 + 1 || p / 8 == psw / 8 - 1;
    assert p / 16 == p / 8 / 2 && psw / 16 == psw / 8 / 2;
  }

  lemma LowBits(a: word, b: word)
    requires a % 8 == b % 8
    ensures a / 4 % 2 == b / 4 % 2 && a % 4 == b % 4
  {
  }

  /** Zero and negative tell the two facts about the result; the other bits stay. */
  lemma FlagsOf(psw: word, w: word)
    ensures Flags(psw, w) / ZERO_FLAG % 2 == (if w == 0 then 1 else 0)
    ensures Flags(psw, w) / NEGATIVE_FLAG % 2 == (if w >= 0x8000 then 1 else 0)
    ensures Flags(psw, w) / 0x10 == psw / 0x10 && Flags(psw, w) % 4 == psw % 4
  {
    var p := SetFlag(psw, ZERO_FLAG, w == 0);
    ZeroSet(psw, w == 0);
    NegativeSet(p, w >= 0x8000);
    LowBits(Flags(psw, w), p);
  }

  // One lap, and all of them

  /** The processor is at the loop with `n` words still to fill. */
  predicate Looping(c: State, d: nat, k: word, n: nat) {
    && !c.halted && Program(c.ram, d, k) && c.r[PC] == d && c.r[0] == n >= 1
    && c.r[1] + 2 * n <= LOW && (c.r[1] + 2 * n <= d || d + CODE_BYTES <= c.r[1])
  }

  predicate OtherRegistersKept(c: State, e: State) {
    forall i :: 2 <= i < PC ==> e.r[i] == c.r[i]
  }

  function Lap(c: State, d: nat, k: word): State
    requires d + CODE_BYTES <= LOW && c.r[PC] == d && c.r[1] + 2 <= LOW
  {
    AfterBne(AfterDec(AfterMov(c, k)))
  }

  lemma LapRegisters(c: State, d: nat, k: word, n: nat)
    requires Looping(c, d, k, n)
    ensures var e := Lap(c, d, k);
            && e.r[0] == n - 1 && e.r[1] == c.r[1] + 2 && OtherRegistersKept(c, e)
            && e.r[PC] == (if n == 1 then d + CODE_BYTES else d)
            && e.r[PSW] == Flags(Flags(c.r[PSW], k), n - 1)
  {
    hide Step, Exec, Flags, PutWord, WordAt;
    var u := AfterMov(c, k);
    var v := AfterDec(u);
    assert v.r[PSW] == Flags(Flags(c.r[PSW], k), n - 1) && v.r[PC] == d + 6;
    FlagsOf(Flags(c.r[PSW], k), n - 1);
  }

  lemma LapMemory(c: State, d: nat, k: word, n: nat)
    requires Looping(c, d, k, n)
    ensures Lap(c, d, k).ram == PutWord(c.ram, c.r[1], k) && Program(Lap(c, d, k).ram, d, k)
    ensures !Lap(c, d, k).halted
  {
    PutWordReads(c.ram, c.r[1], k, d);
    PutWordReads(c.ram, c.r[1], k, d + 2);
    PutWordReads(c.ram, c.r[1], k, d + 4);
    PutWordReads(c.ram, c.r[1], k, d + 6);
  }

  lemma OneStep(c: State, m: nat, e: State)
    requires !c.halted && Step(c) == Some(e)
    ensures Run(c, m + 1) == Run(e, m)
  {
    hide Step, Exec;
  }

  /** Three passes make a lap, and the program counter stays in the loop meanwhile. */
  lemma LapRuns(c: State, d: nat, k: word, n: nat, m: nat)
    requires Looping(c, d, k, n)
    ensures Run(c, m + 3) == Run(Lap(c, d, k), m)
    ensures Run(c, 1) == Some(AfterMov(c, k)) && Run(c, 2) == Some(AfterDec(AfterMov(c, k)))
    ensures AfterMov(c, k).r[PC] == d + 4 && AfterDec(AfterMov(c, k)).r[PC] == d + 6
  {
    hide Step, Exec;
    LapMemory(c, d, k, n);
    var u := AfterMov(c, k);
    var v := AfterDec(u);
    MovStep(c, k);
    DecStep(u);
    BneStep(v);
    OneStep(c, m + 2, u);
    OneStep(u, m + 1, v);
    OneStep(v, m, Lap(c, d, k));
    OneStep(c, 0, u);
    OneStep(c, 1, u);
    OneStep(u, 0, v);
  }

  predicate Inside(c: Option<State>, d: nat) { c.Some? && d <= c.value.r[PC] < d + CODE_BYTES }

  /** What the loop leaves behind: n copies of the word, and nothing else changed. */
  ghost predicate Filled(c: State, e: State, d: nat, k: word, n: nat) {
    && e.r[0] == 0 && e.r[1] == c.r[1] + 2 * n && e.r[PC] == d + CODE_BYTES && !e.halted
    && OtherRegistersKept(c, e)
    && c.r[1] + 2 * n <= LOW
    && (forall j :: 0 <= j < n ==> WordAt(e.ram, c.r[1] + 2 * j) == k)
    && (forall a :: 0 <= a < MEM_BYTES && !(c.r[1] <= a < c.r[1] + 2 * n) ==> e.ram[a] == c.ram[a])
  }

  /** What a lap does, without saying how: the state it ends in, and that it takes three
      passes inside the loop. */
  ghost predicate GoodLap(c: State, l: State, d: nat, k: word, n: nat) {
    && 1 <= n <= LOW && c.r[1] + 2 <= LOW
    && l.r[0] == n - 1 && l.r[1] == c.r[1] + 2 && OtherRegistersKept(c, l)
    && l.r[PC] == (if n == 1 then d + CODE_BYTES else d)
    && l.r[PSW] == Flags(Flags(c.r[PSW], k), n - 1)
    && l.ram == PutWord(c.ram, c.r[1], k) && Program(l.ram, d, k) && !l.halted
  }

  /** Three passes lead from `c` to `l`. */
  ghost predicate ThreePasses(c: State, l: State) {
    forall m: nat :: m >= 3 ==> Run(c, m) == Run(l, m - 3)
  }

  lemma GoRound(c: State, d: nat, k: word, n: nat) returns (l: State)
    requires Looping(c, d, k, n)
    ensures GoodLap(c, l, d, k, n) && ThreePasses(c, l)
    ensures Inside(Run(c, 0), d) && Inside(Run(c, 1), d) && Inside(Run(c, 2), d)
  {
    hide Step, Exec;
    l := Lap(c, d, k);
    LapRegisters(c, d, k, n);
    LapMemory(c, d, k, n);
    forall m: nat | m >= 3 ensures Run(c, m) == Run(l, m - 3) {
      LapRuns(c, d, k, n, m - 3);
    }
    LapRuns(c, d, k, n, 0);
    RunStops(c, 0);
  }

  /** On leaving the loop zero is set, negative clear, and the other flags are as they were. */
  predicate FlagsKept(c: State, e: State) {
    e.r[PSW] / 0x10 == c.r[PSW] / 0x10 && e.r[PSW] % 0x10 == ZERO_FLAG + c.r[PSW] % 4
  }

  lemma FilledOnce(c: State, l: State, d: nat, k: word)
    requires Looping(c, d, k, 1) && GoodLap(c, l, d, k, 1)
    ensures Filled(c, l, d, k, 1)
  {
    PutWordReads(c.ram, c.r[1], k, c.r[1]);
  }

  lemma FilledFurther(c: State, l: State, e: State, d: nat, k: word, n: nat)
    requires Looping(c, d, k, n) && n > 1 && GoodLap(c, l, d, k, n) && Filled(l, e, d, k, n - 1)
    ensures Filled(c, e, d, k, n)
  {
    PutWordReads(c.ram, c.r[1], k, c.r[1]);
    forall j | 0 <= j < n ensures WordAt(e.ram, c.r[1] + 2 * j) == k {
      if j > 0 {
        var i := j - 1;
        assert WordAt(e.ram, l.r[1] + 2 * i) == k;
      } else {
        assert e.ram[c.r[1]] == l.ram[c.r[1]] && e.ram[c.r[1] + 1] == l.ram[c.r[1] + 1];
      }
    }
  }

  lemma StillLooping(c: State, l: State, d: nat, k: word, n: nat)
    requires Looping(c, d, k, n) && n > 1 && GoodLap(c, l, d, k, n)
    ensures Looping(l, d, k, n - 1)
  {
  }

  /** The whole loop: with r0 = n at least 1 and a target clear of the code, both below 01000,
      after 3n instructions r0 is 0, the program counter is behind the loop, n words hold k,
      and every other byte of memory, every other register and every other flag is unchanged. */
  lemma {:induction false} FillsMemory(c: State, d: nat, k: word, n: nat) returns (e: State)
    requires Looping(c, d, k, n)
    ensures Run(c, 3 * n) == Some(e) && Filled(c, e, d, k, n) && FlagsKept(c, e)
    decreases n
  {
    hide Step, Exec;
    var l := GoRound(c, d, k, n);
    LapFlags(c.r[PSW], l.r[PSW], k, n);
    if n == 1 {
      e := l;
      RunStops(l, 0);
      FilledOnce(c, l, d, k);
    } else {
      StillLooping(c, l, d, k, n);
      e := FillsMemory(l, d, k, n - 1);
      FilledFurther(c, l, e, d, k, n);
      assert Run(c, 3 * n) == Run(l, 3 * n - 3);
    }
  }

  /** And not before: after fewer instructions the program counter is still in the loop. */
  lemma {:induction false} LeavesNoEarlier(c: State, d: nat, k: word, n: nat, m: nat)
    requires Looping(c, d, k, n) && m < 3 * n
    ensures Inside(Run(c, m), d)
    decreases n
  {
    hide Step, Exec;
    if m < 3 {
      var _ := GoRound(c, d, k, n);
    } else {
      var l := GoRound(c, d, k, n);
      StillLooping(c, l, d, k, n);
      LeavesNoEarlier(l, d, k, n - 1, m - 3);
    }
  }

  lemma LapFlags(before: word, after: word, k: word, n: nat)
    requires 1 <= n <= 0x200 && after == Flags(Flags(before, k), n - 1)
    ensures after / 0x10 == before / 0x10 && after % 4 == before % 4
    ensures n == 1 ==> after % 0x10 == ZERO_FLAG + before % 4
  {
    FlagsOf(before, k);
    FlagsOf(Flags(before, k), n - 1);
    LowFour(after);
  }

  lemma LowFour(psw: word)
    ensures psw % 0x10 == psw % 4 + 4 * (psw / 4 % 2) + 8 * (psw / 8 % 2)
  {
    var q := psw / 4;
    assert psw / 8 == q / 2;
    assert psw == 16 * (q / 4) + 4 * (q % 4) + psw % 4;
    TwoBits(q);
    Remainder(q / 4, 4 * (q % 4) + psw % 4, psw);
  }

  lemma TwoBits(q: nat)
    ensures q % 4 == q % 2 + 2 * (q / 2 % 2)
  {
  }

  lemma Remainder(q: nat, r: nat, x: nat)
    requires r < 16 && x == 16 * q + r
    ensures x % 0x10 == r
  {
  }

  /** The same for the object: its loop, run from there, does all of it. */
  method RunLoop(p: Processor, d: nat, k: word, n: nat)
    requires Looping(p.View(), d, k, n)
    modifies p
    ensures Filled(old(p.View()), p.View(), d, k, n) && FlagsKept(old(p.View()), p.View())
  {
    var _ := FillsMemory(p.View(), d, k, n);
    p.Execute(3 * n);
  }
}
