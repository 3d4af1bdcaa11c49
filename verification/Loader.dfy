/** The loader for assembled files, into the memory that also holds the registers. */
module Loader {
  import opened MemoryDevice
  import opened AtticMemory
  import opened WordFiles

  /** The byte read at a place in the file; at the end of the file the byte read before
      stays in the variable. */
  function ByteAt(data: seq<byte>, i: nat): byte {
    if i < |data| then data[i] else if data == [] then 0 else data[|data| - 1]
  }

  function Stored(s: Store, data: seq<byte>, offset: nat, n: nat): Store
    requires offset + n <= MEM_BYTES
    decreases n
  {
    if n == 0 then s else StoreByte(Stored(s, data, offset, n - 1), offset + n - 1, ByteAt(data, n - 1))
  }

  /** How many bytes the loop stores: its bound is cut to 16 bits and may lie below the start. */
  function LoadCount(len: word, offset: word): nat {
    var end := (offset + len as int * 2) % 0x1_0000;
    if end < offset then 0 else end - offset
  }

  /** A header word of the file, which stays 0 when the file ends before it.  What it holds when
      the file ends in the middle of it is not determined, and given by `cut`. */
  function Header(file: seq<byte>, at: nat, cut: word): word {
    if at + 1 < |file| then Word(file, at) else if at < |file| then cut else 0
  }

  function Body(file: seq<byte>): seq<byte> { if |file| < 4 then [] else file[4..] }

  /** What loading a file leaves in memory. */
  function Loaded(s: Store, file: seq<byte>, cut: word): Store {
    var len, offset := Header(file, 0, cut), Header(file, 2, cut);
    SetR(Stored(s, Body(file), offset, LoadCount(len, offset)), R_PC, offset)
  }

  method LoadProgram(m: Memory, file: seq<byte>, cut: word)
    requires m.Valid()
    modifies m.cells
    ensures m.Contents() == Loaded(old(m.Contents()), file, cut)
  {
    hide StoreByte;
    var len, offset: word := 0, 0;
    if 2 <= |file| {
      len := Word(file, 0);
    } else if 1 == |file| {
      len := cut;
    }
    if 4 <= |file| {
      offset := Word(file, 2);
    } else if 3 == |file| {
      offset := cut;
    }
    ghost var body := Body(file);
    var pos := if 4 <= |file| then 4 else |file|;
    ghost var start := pos;
    assert body == file[start..] && len == Header(file, 0, cut) && offset == Header(file, 2, cut);
    hide Header, Body, SetR, Word;
    var data: byte := 0;
    var end := (offset + len as int * 2) % 0x1_0000;
    var i: nat := offset;
    while i < end
      invariant offset <= i <= offset + LoadCount(len, offset)
      invariant m.Valid() && m.Contents() == Stored(old(m.Contents()), body, offset, i - offset)
      invariant pos <= |file| && pos == if start + (i - offset) <= |file| then start + (i - offset) else |file|
      invariant i > offset ==> data == ByteAt(body, i - offset - 1)
      invariant i == offset ==> data == 0
    {
      if pos < |file| {
        data := file[pos];
        pos := pos + 1;
      }
      m.DirectWriteByte(i, data);
      i := i + 1;
    }
    m.WriteRegister(R_PC, offset);
  }
}
