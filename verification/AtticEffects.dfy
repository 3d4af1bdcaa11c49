/** What the four reactions do, bit by bit, and that the reaction to a write of the disk's data
    register is what the controller's model takes it to be. */
module AtticEffects {
  import opened MemoryDevice
  import opened AtticMemory
  import Rx11

  // Bits

  /** Bit `k` of a word, and of a bit vector. */
  function Bit(w: nat, k: nat): bool { if k == 0 then w % 2 == 1 else Bit(w / 2, k - 1) }

  function BitOf(v: bv16, k: nat): bool
    requires k < 16
  {
    (v >> k) & 1 != 0
  }

  function Two(k: nat): nat { if k == 0 then 1 else 2 * Two(k - 1) }

  lemma {:induction false} BitTaken(w: nat, j: nat, k: nat)
    requires Bit(w, j)
    ensures Two(j) <= w && Bit(w - Two(j), k) == (k != j && Bit(w, k))
    decreases j
  {
    if j == 0 {
      assert (w - 1) / 2 == w / 2 && (w - 1) % 2 == 0;
      assert Two(0) == 1;
    } else {
      BitTaken(w / 2, j - 1, if k == 0 then 0 else k - 1);
      assert (w - Two(j)) / 2 == w / 2 - Two(j - 1) && (w - Two(j)) % 2 == w % 2;
    }
  }

  lemma {:induction false} BitGiven(w: nat, j: nat, k: nat)
    requires !Bit(w, j)
    ensures Bit(w + Two(j), k) == (k == j || Bit(w, k))
    decreases j
  {
    if j == 0 {
      assert (w + 1) / 2 == w / 2 && (w + 1) % 2 == 1;
      assert Two(0) == 1;
    } else {
      BitGiven(w / 2, j - 1, if k == 0 then 0 else k - 1);
      assert (w + Two(j)) / 2 == w / 2 + Two(j - 1) && (w + Two(j)) % 2 == w % 2;
    }
  }

  /** The flag of the status words is bit 7. */
  lemma FlagIs(w: word)
    ensures Flagged(w) == Bit(w, 7)
  {
    var a := w / 2 / 2 / 2;
    assert Bit(w, 7) == Bit(w / 2, 6) == Bit(w / 2 / 2, 5) == Bit(a, 4);
    assert Bit(a, 4) == Bit(a / 2, 3) == Bit(a / 2 / 2, 2) == Bit(a / 2 / 2 / 2, 1) == Bit(a / 2 / 2 / 2 / 2, 0);
    assert a == w / 8 && a / 2 / 2 / 2 / 2 == w / FLAG;
  }

  /** Taking the flag away clears bit 7 and leaves the other bits; giving it sets it. */
  lemma FlagBits(w: word, k: nat)
    ensures Bit(Without(w), k) == (k != 7 && Bit(w, k))
    ensures Bit(With(w), k) == (k == 7 || Bit(w, k))
  {
    FlagIs(w);
    assert Two(7) == FLAG;
    if Bit(w, 7) {
      BitTaken(w, 7, k);
    } else {
      BitGiven(w, 7, k);
    }
  }

  lemma Masked(v: bv16, k: nat)
    requires k < 16
    ensures BitOf(v & 0xFF7F, k) == (k != 7 && BitOf(v, k))
  {
    match k {
      case 0 =>
      case 1 =>
      case 2 =>
      case 3 =>
      case 4 =>
      case 5 =>
      case 6 =>
      case 7 =>
      case _ =>
        assert (v & 0xFF7F) >> 8 == v >> 8;
        assert v >> 8 >> (k - 8) == v >> k && (v & 0xFF7F) >> 8 >> (k - 8) == (v & 0xFF7F) >> k;
    }
  }

  // The reactions

  /** Writing the disk's data register: the transfer request is withdrawn, and nothing else. */
  lemma DataWritten(s: Store, a: nat, k: nat)
    requires a < MEM_BYTES && !(RXCS <= a < RXCS + 2)
    ensures var t := AfterWrite(s, RXDB);
            Bit(WordAt(t, RXCS), k) == (k != 7 && Bit(WordAt(s, RXCS), k)) && t[a] == s[a]
  {
    FlagBits(WordAt(s, RXCS), k);
    PutWordReads(s, RXCS, Without(WordAt(s, RXCS)), RXCS);
  }

  /** Reading it: the same, and the register is zero afterwards. */
  lemma DataRead(s: Store, a: nat, k: nat)
    requires a < MEM_BYTES && !(RXCS <= a < RXCS + 4)
    ensures var t := AfterRead(s, RXDB);
            && WordAt(t, RXDB) == 0 && Bit(WordAt(t, RXCS), k) == (k != 7 && Bit(WordAt(s, RXCS), k))
            && t[a] == s[a]
  {
    var u := PutWord(s, RXDB, 0);
    PutWordReads(s, RXDB, 0, RXCS);
    PutWordReads(s, RXDB, 0, RXDB);
    FlagBits(WordAt(u, RXCS), k);
    PutWordReads(u, RXCS, Without(WordAt(u, RXCS)), RXCS);
    PutWordReads(u, RXCS, Without(WordAt(u, RXCS)), RXDB);
  }

  /** Reading the keyboard's buffer: buffer and status are zero afterwards. */
  lemma KeyRead(s: Store, a: nat)
    requires a < MEM_BYTES && !(TKS <= a < TKS + 4)
    ensures var t := AfterRead(s, TKB); WordAt(t, TKB) == 0 && WordAt(t, TKS) == 0 && t[a] == s[a]
  {
    var u := PutWord(s, TKB, 0);
    PutWordReads(s, TKB, 0, TKB);
    PutWordReads(u, TKS, 0, TKS);
    PutWordReads(u, TKS, 0, TKB);
  }

  /** Reading the printer's buffer: it is zero afterwards, and the printer is ready. */
  lemma PrinterRead(s: Store, a: nat, k: nat)
    requires a < MEM_BYTES && !(TPS <= a < TPS + 4)
    ensures var t := AfterRead(s, TPB);
            && WordAt(t, TPB) == 0 && Bit(WordAt(t, TPS), k) == (k == 7 || Bit(WordAt(s, TPS), k))
            && t[a] == s[a]
  {
    var u := PutWord(s, TPB, 0);
    PutWordReads(s, TPB, 0, TPB);
    FlagBits(WordAt(s, TPS), k);
    PutWordReads(u, TPS, With(WordAt(s, TPS)), TPS);
    PutWordReads(u, TPS, With(WordAt(s, TPS)), TPB);
  }

  /** No other access has a reaction. */
  lemma NothingElse(s: Store, loc: nat)
    ensures loc != 0xFE7A && loc != 0x1F42 && loc != 0x1F46 ==> AfterRead(s, loc) == s
    ensures loc != 0xFE7A ==> AfterWrite(s, loc) == s
  {
  }

  // The disk's registers, seen from both sides

  /** The cells of the older emulator's memory hold what the controller's registers hold. */
  ghost predicate Shows(s: Store, c: Rx11.Cells) {
    && (forall k :: 0 <= k < 16 ==> Bit(WordAt(s, RXCS), k) == BitOf(c.cs, k))
    && s[RXDB] == c.db
  }

  lemma ByteAside(s: Store, b: byte)
    ensures WordAt(PutByte(s, RXDB, b), RXCS) == WordAt(s, RXCS) && PutByte(s, RXDB, b)[RXDB] == b
  {
  }

  lemma BothWithdraw(w: word, x: word, v: bv16)
    requires forall k :: 0 <= k < 16 ==> Bit(w, k) == BitOf(v, k)
    requires forall k :: 0 <= k < 16 ==> Bit(x, k) == (k != 7 && Bit(w, k))
    ensures forall k :: 0 <= k < 16 ==> Bit(x, k) == BitOf(v & !Rx11.XFER, k)
  {
    hide Bit, BitOf;
    assert !Rx11.XFER == 0xFF7F;
    forall k | 0 <= k < 16 ensures Bit(x, k) == BitOf(v & !Rx11.XFER, k) {
      Masked(v, k);
    }
  }

  /** The processor's byte write with its reaction is the host's write of the data register. */
  lemma HostWriteShows(s: Store, c: Rx11.Cells, b: byte)
    requires Shows(s, c)
    ensures Shows(StoreByte(s, RXDB, b), Rx11.Cells(c.cs & !Rx11.XFER, b))
  {
    hide Bit, BitOf, AfterWrite, WordAt, PutByte;
    var u := PutByte(s, RXDB, b);
    var t := AfterWrite(u, RXDB);
    ByteAside(s, b);
    forall k | 0 <= k < 16 ensures Bit(WordAt(t, RXCS), k) == (k != 7 && Bit(WordAt(s, RXCS), k)) {
      DataWritten(u, RXDB, k);
    }
    BothWithdraw(WordAt(s, RXCS), WordAt(t, RXCS), c.cs);
    DataWritten(u, RXDB, 0);
  }

  /** A word write does the same, with the low byte as the data. */
  lemma HostWordShows(s: Store, c: Rx11.Cells, v: word)
    requires Shows(s, c)
    ensures Shows(StoreWord(s, RXDB, v), Rx11.Cells(c.cs & !Rx11.XFER, v % 0x100))
  {
    hide Bit, BitOf, AfterWrite, WordAt, PutWord;
    var u := PutWord(s, RXDB, v);
    var t := AfterWrite(u, RXDB);
    WordAside(s, v);
    forall k | 0 <= k < 16 ensures Bit(WordAt(t, RXCS), k) == (k != 7 && Bit(WordAt(s, RXCS), k)) {
      DataWritten(u, RXDB, k);
    }
    BothWithdraw(WordAt(s, RXCS), WordAt(t, RXCS), c.cs);
    DataWritten(u, RXDB, 0);
  }

  lemma WordAside(s: Store, v: word)
    ensures WordAt(PutWord(s, RXDB, v), RXCS) == WordAt(s, RXCS) && PutWord(s, RXDB, v)[RXDB] == v % 0x100
  {
  }

  /** The processor's read of it, likewise. */
  lemma HostReadShows(s: Store, c: Rx11.Cells)
    requires Shows(s, c)
    ensures Shows(AfterRead(s, RXDB), Rx11.Cells(c.cs & !Rx11.XFER, 0))
  {
    hide Bit, BitOf, AfterRead;
    var t := AfterRead(s, RXDB);
    forall k | 0 <= k < 16 ensures Bit(WordAt(t, RXCS), k) == (k != 7 && Bit(WordAt(s, RXCS), k)) {
      DataRead(s, 0, k);
    }
    BothWithdraw(WordAt(s, RXCS), WordAt(t, RXCS), c.cs);
    DataRead(s, 0, 0);
  }
}
