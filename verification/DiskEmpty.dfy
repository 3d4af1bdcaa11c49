/** The command that no host of `DiskProtocol` issues: EMPTY, read out by a polling host, on whole
    passes of the controller's loop. */
module DiskEmpty {
  import opened MemoryDevice
  import opened Rx11

  /** The processor's read of the data register: the register is zeroed, the request withdrawn. */
  function HostReads(c: Cells): Cells { Cells(c.cs & !XFER, 0) }

  /** The controller after `n` rounds of one pass and one read. */
  function Rounds(v: View, n: nat): View {
    if n == 0 then v
    else
      var w := Rounds(v, n - 1);
      var x := Pass(w.d, w.cells);
      x.(cells := HostReads(x.cells))
  }

  /** What the host has read in them. */
  function BytesRead(v: View, n: nat): seq<byte> {
    if n == 0 then []
    else
      var w := Rounds(v, n - 1);
      BytesRead(v, n - 1) + [Pass(w.d, w.cells).cells.db]
  }

  predicate Emptying(d: Disk, k: nat) { d.state == S_EMPTY && d.func == F_EMPTY && d.index == k }

  lemma OneRound(d: Disk, k: nat)
    requires Emptying(d, k) && k < SECTOR_SIZE
    ensures Pass(d, Cells(0, 0)) ==
              View(d.(index := k + 1), Top, Cells(if k + 1 == SECTOR_SIZE then DONE else XFER, k))
  {
  }

  lemma {:induction false} HandsOverIndex(d: Disk, n: nat)
    requires Emptying(d, 0) && n <= SECTOR_SIZE
    ensures Rounds(View(d, Top, Cells(0, 0)), n)
            == View(d.(index := n), Top, Cells(if n == SECTOR_SIZE then DONE else 0, 0))
    ensures BytesRead(View(d, Top, Cells(0, 0)), n) == seq(n, i requires 0 <= i < n => i)
  {
    hide Pass;
    var v := View(d, Top, Cells(0, 0));
    if n > 0 {
      HandsOverIndex(d, n - 1);
      OneRound(d.(index := n - 1), n - 1);
    } else {
      assert d.(index := 0) == d;
    }
  }

  /** EMPTY, from a controller at rest: the host reads 128 bytes, which are their own indices and not
      the buffer's contents; then DONE is reported, and buffer and file are as they were. */
  lemma EmptyHandsOverIndices(d: Disk, cs: bv16, db: byte)
    requires d.func == F_IDLE && d.index == 0 && (d.state == S_BEGIN || d.state == S_DONE)
    requires cs == 0x0003 || cs == 0x0003 | DONE
    ensures var v := Pass(d, Cells(cs, db)).(cells := Cells(0, 0));
            var w := Rounds(v, SECTOR_SIZE);
            var x := Pass(w.d, w.cells);
            var y := Pass(x.d, x.cells);
            && Pass(d, Cells(cs, db)).cells.cs == 0
            && BytesRead(v, SECTOR_SIZE) == seq(SECTOR_SIZE, i requires 0 <= i < SECTOR_SIZE => i)
            && y.cells.cs == DONE && y.d == d.(state := S_BEGIN)
  {
    hide Rounds, BytesRead;
    var e := d.(state := S_EMPTY, func := F_EMPTY);
    assert (0x0003 as bv16 & FS) >> 1 == 1 && ((0x0003 | DONE) & FS) >> 1 == 1;
    assert Pass(d, Cells(cs, db)) == View(e, Top, Cells(0, db));
    HandsOverIndex(e, SECTOR_SIZE);
    EmptyEnds(e.(index := SECTOR_SIZE));
  }

  lemma EmptyEnds(d: Disk)
    requires Emptying(d, SECTOR_SIZE)
    ensures var x := Pass(d, Cells(DONE, 0));
            Pass(x.d, x.cells) == View(d.(index := 0, state := S_BEGIN, func := F_IDLE), Top, Cells(DONE, 0))
  {
  }

  /** A function code without a command only clears the status. */
  lemma UnusedCode(d: Disk, c: Cells)
    requires c.cs & GO != 0 && (c.cs & FS) >> 1 >= 4 && (d.state == S_BEGIN || d.state == S_DONE)
    ensures Pass(d, c) == View(d, Top, c.(cs := 0))
  {
  }
}
