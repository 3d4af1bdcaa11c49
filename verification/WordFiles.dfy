/** Files of 16-bit words, low byte first, and what it means to have loaded one. */
module WordFiles {
  import opened MemoryDevice
  import opened AtticMemory

  function Bytes(w: word): seq<byte> { [w % 0x100, w / 0x100] }

  function Word(f: seq<byte>, at: nat): word
    requires at + 1 < |f|
  {
    f[at] as int + 0x100 * f[at + 1] as int
  }

  function AllBytes(ws: seq<word>): seq<byte> {
    if ws == [] then [] else Bytes(ws[0]) + AllBytes(ws[1..])
  }

  lemma {:induction false} BytesOf(ws: seq<word>, k: nat)
    requires k < |ws|
    ensures |AllBytes(ws)| == 2 * |ws|
    ensures AllBytes(ws)[2 * k] == ws[k] % 0x100 && AllBytes(ws)[2 * k + 1] == ws[k] / 0x100
    decreases |ws|
  {
    if |ws| > 1 {
      BytesOf(ws[1..], if k > 0 then k - 1 else 0);
    } else {
      assert AllBytes(ws[1..]) == [];
    }
  }

  /** No byte of the range is a register cell or the data register of the disk. */
  predicate ClearRange(offset: nat, bytes: nat) {
    forall a :: offset <= a < offset + bytes ==> !RegisterCell(a) && a != RXDB
  }

  /** What memory must look like after loading words at an offset. */
  ghost predicate Holds(s: Store, t: Store, ws: seq<word>, offset: word)
    requires offset + 2 * |ws| <= MEM_BYTES
  {
    && (forall k :: 0 <= k < |ws| ==> WordAt(t, offset + 2 * k) == ws[k])
    && GetR(t, R_PC) == offset
    && (forall a :: 0 <= a < MEM_BYTES && !(offset <= a < offset + 2 * |ws|) && !(Cell(R_PC) <= a < Cell(R_PC) + 2) ==>
          t[a] == s[a])
  }

  lemma LoadedHolds(s: Store, ws: seq<word>, offset: word)
    requires offset + 2 * |ws| <= MEM_BYTES && ClearRange(offset, 2 * |ws|)
    ensures Holds(s, SetR(PutWords(s, offset, ws), R_PC, offset), ws, offset)
  {
    var t := PutWords(s, offset, ws);
    PutWordsReads(s, offset, ws);
    PutWordReads(t, Cell(R_PC), offset, Cell(R_PC));
    forall k | 0 <= k < |ws| ensures WordAt(SetR(t, R_PC, offset), offset + 2 * k) == ws[k] {
      var a := offset + 2 * k;
      assert !RegisterCell(a) && !RegisterCell(a + 1);
    }
  }

  /** The same when the program counter is set first. */
  lemma PreparedHolds(s: Store, ws: seq<word>, offset: word)
    requires offset + 2 * |ws| <= MEM_BYTES && ClearRange(offset, 2 * |ws|)
    ensures Holds(s, PutWords(SetR(s, R_PC, offset), offset, ws), ws, offset)
  {
    var t := SetR(s, R_PC, offset);
    PutWordsReads(t, offset, ws);
    PutWordReads(s, Cell(R_PC), offset, Cell(R_PC));
    assert RegisterCell(Cell(R_PC)) && RegisterCell(Cell(R_PC) + 1);
  }
}
