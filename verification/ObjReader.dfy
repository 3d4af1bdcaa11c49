/** The reader for RT-11 object files: it looks for the first text block and loads it. */
module ObjReader {
  import opened Wrappers
  import opened MemoryDevice
  import opened AtticMemory
  import opened WordFiles

  const TEXT: byte := 3

  /** A byte of the file; at its end the variable read into keeps its value. */
  function ByteOr(f: seq<byte>, pos: nat, was: byte): byte { if pos < |f| then f[pos] else was }

  /** One look at the block at a position: a text block and where it is taken to start, a block to
      skip and where the next one starts, or the end of the file, with what was answered. */
  datatype Look = IsText(at: nat) | Skip(next: nat) | Ended(text: bool)

  /** The reader's type byte is the variable that the first byte was read into; at the end of the
      file it keeps that byte, or `stale`, what it held before.  Going back then leads to five
      bytes before the end, or fails. */
  function LookAt(f: seq<byte>, pos: nat, stale: byte): (r: Look)
    requires pos <= |f|
    ensures r.Skip? ==> pos < r.next <= |f|
    ensures r.IsText? ==> r.at + 5 <= |f|
  {
    var tag := ByteOr(f, pos + 4, ByteOr(f, pos, stale));
    if tag == TEXT then
      if pos + 5 <= |f| then IsText(pos) else if 5 <= |f| then IsText(|f| - 5) else Ended(true)
    else if pos + 5 > |f| then Ended(false)
    else
      var len := Word(f, pos + 2);
      var next := pos + (if len < 5 then 5 else len) + 1;
      if next > |f| then Ended(false) else Skip(next)
  }

  /** Where the first text block starts, if the search finds one. */
  function Find(f: seq<byte>, pos: nat, stale: byte): (r: Option<nat>)
    requires pos <= |f|
    ensures r.Some? ==> r.value + 5 <= |f|
    decreases |f| - pos
  {
    match LookAt(f, pos, stale)
    case IsText(at) => Some(at)
    case Skip(next) => Find(f, next, stale)
    case Ended(_) => None
  }

  /** Words stored one after the other while fewer than `len` bytes are done. */
  function StoreWords(s: Store, f: seq<byte>, pos: nat, loc: word, len: nat, i: nat, b1: byte, b2: byte): Option<Store>
    decreases len - i
  {
    if i >= len then Some(s)
    else if loc + 1 >= MEM_BYTES then None
    else
      var c1, c2 := ByteOr(f, pos, b1), ByteOr(f, pos + 1, b2);
      StoreWords(StoreWord(s, loc, c1 as int + 0x100 * c2 as int), f, pos + 2, (loc + 2) % 0x1_0000, len, i + 2, c1, c2)
  }

  function Less8(len: word): word { (len as int - 8) % 0x1_0000 }

  /** A text block that the file ends in before its load offset has no result. */
  function LoadText(s: Store, f: seq<byte>, pos: nat): Option<Store> {
    if pos + 7 > |f| then None
    else
      var len := Less8(Word(f, pos + 2));
      var offset := Word(f, pos + 5);
      StoreWords(SetR(s, R_PC, offset), f, if pos + 7 < |f| then pos + 8 else |f|, offset, len, 0, f[pos], f[pos + 1])
  }

  /** The memory after reading an object file, where it is determined. */
  function LoadObject(s: Store, f: seq<byte>, stale: byte): Option<Store> {
    match Find(f, 0, stale)
    case Some(pos) => LoadText(s, f, pos)
    case None => Some(s)
  }

  /** An open file: reading past its end raises the flag, seeking clears it. */
  class ObjFile {
    const data: seq<byte>
    var next: nat
    var eof: bool

    constructor (bytes: seq<byte>)
      ensures data == bytes && next == 0 && !eof
    {
      data, next, eof := bytes, 0, false;
    }

    method ReadByte(was: byte) returns (b: byte)
      requires next <= |data|
      modifies this
      ensures b == ByteOr(data, old(next), was)
      ensures if old(next) < |data| then next == old(next) + 1 && eof == old(eof) else next == old(next) && eof
    {
      if next == |data| {
        eof := true;
        return was;
      }
      b := data[next];
      next := next + 1;
    }

    /** A word that the file ends in is not determined. */
    method ReadWord(was: word) returns (w: word)
      requires next <= |data|
      modifies this
      ensures if old(next) + 2 <= |data| then w == Word(data, old(next)) && next == old(next) + 2 && eof == old(eof)
              else next == |data| && eof
    {
      if next + 2 > |data| {
        next, eof := |data|, true;
        return was;
      }
      w := Word(data, next);
      next := next + 2;
    }

    /** Going back clears the end of the file, and fails in front of the start. */
    method SeekBack(n: nat)
      modifies this
      ensures if n <= old(next) then next == old(next) - n && !eof else next == old(next) && eof == old(eof)
    {
      if n <= next {
        next, eof := next - n, false;
      }
    }
  }

  method IsTextBlock(obj: ObjFile, stale: byte) returns (text: bool)
    requires obj.next <= |obj.data| && !obj.eof
    modifies obj
    ensures obj.next <= |obj.data|
    ensures match LookAt(obj.data, old(obj.next), stale)
            case IsText(at) => text && obj.next == at && !obj.eof
            case Skip(next) => !text && obj.next == next && !obj.eof
            case Ended(answer) => text == answer && obj.eof
  {
    var start := obj.next;
    var byte01 := obj.ReadByte(stale);
    var byte02 := obj.ReadByte(0);
    var len := obj.ReadWord(0);
    byte01 := obj.ReadByte(byte01);
    if byte01 != TEXT {
      var data: byte := 0;
      var i := 0;
      while i < len - 5
        invariant 0 <= i && (i <= len - 5 || i == 0)
        invariant if start + 5 + i <= |obj.data| then obj.next == start + 5 + i && !obj.eof
                  else obj.next == |obj.data| && obj.eof
      {
        data := obj.ReadByte(data);
        i := i + 1;
      }
      var chksum := obj.ReadByte(0);
      return false;
    }
    obj.SeekBack(5);
    return true;
  }

  /** The loop over the data of a text block. */
  method CopyWords(m: Memory, obj: ObjFile, offset: word, len: nat, b1: byte, b2: byte)
    requires m.Valid() && obj.next <= |obj.data|
    requires StoreWords(m.Contents(), obj.data, obj.next, offset, len, 0, b1, b2).Some?
    modifies m.cells, obj
    ensures Some(m.Contents()) == StoreWords(old(m.Contents()), obj.data, old(obj.next), offset, len, 0, b1, b2)
  {
    ghost var goal := StoreWords(m.Contents(), obj.data, obj.next, offset, len, 0, b1, b2);
    ghost var pos := obj.next;
    var loc, byte01, byte02 := offset, b1, b2;
    var i := 0;
    while i < len
      invariant 0 <= i && m.Valid() && obj.next <= |obj.data|
      invariant obj.next == if pos <= |obj.data| then pos else |obj.data|
      invariant goal.Some? && StoreWords(m.Contents(), obj.data, pos, loc, len, i, byte01, byte02) == goal
    {
      byte01 := obj.ReadByte(byte01);
      byte02 := obj.ReadByte(byte02);
      m.DirectWriteWord(loc, byte01 as int + 0x100 * byte02 as int);
      i := i + 2;
      loc := (loc + 2) % 0x1_0000;
      pos := pos + 2;
    }
  }

  method LoadTextBlock(m: Memory, obj: ObjFile)
    requires m.Valid() && obj.next <= |obj.data| && LoadText(m.Contents(), obj.data, obj.next).Some?
    modifies m.cells, obj
    ensures Some(m.Contents()) == LoadText(old(m.Contents()), obj.data, old(obj.next))
  {
    var byte01 := obj.ReadByte(0);
    var byte02 := obj.ReadByte(0);
    var len := obj.ReadWord(0);
    var tag := obj.ReadByte(0);
    var offset := obj.ReadWord(0);
    var pad := obj.ReadByte(0);
    len := Less8(len);
    m.WriteRegister(R_PC, offset);
    CopyWords(m, obj, offset, len, byte01, byte02);
  }

  /** `stale` is what the type byte's variable happens to hold before anything is read into it. */
  method LoadProgram(m: Memory, file: seq<byte>, stale: byte)
    requires m.Valid() && LoadObject(m.Contents(), file, stale).Some?
    modifies m.cells
    ensures Some(m.Contents()) == LoadObject(old(m.Contents()), file, stale)
  {
    var obj := new ObjFile(file);
    var text := IsTextBlock(obj, stale);
    while !text && !obj.eof
      invariant obj.data == file && obj.next <= |file| && m.Contents() == old(m.Contents())
      invariant text && !obj.eof ==> Find(file, 0, stale) == Some(obj.next)
      invariant obj.eof ==> Find(file, 0, stale) == None
      invariant !text && !obj.eof ==> Find(file, 0, stale) == Find(file, obj.next, stale)
      decreases if text || obj.eof then 0 else 1 + |file| - obj.next
    {
      text := IsTextBlock(obj, stale);
    }
    if !obj.eof {
      LoadTextBlock(m, obj);
    }
  }

  // Well-formed files

  datatype Block = Block(b1: byte, b2: byte, tag: byte, data: seq<byte>, checksum: byte)

  predicate Other(b: Block) { b.tag != TEXT && |b.data| + 5 < 0x1_0000 }

  ghost predicate AllOther(bs: seq<Block>) { forall i :: 0 <= i < |bs| ==> Other(bs[i]) }

  /** A block's length word counts everything but the checksum. */
  function BlockBytes(b: Block): seq<byte>
    requires |b.data| + 5 < 0x1_0000
  {
    [b.b1, b.b2] + Bytes(|b.data| + 5) + [b.tag] + b.data + [b.checksum]
  }

  ghost function Blocks(bs: seq<Block>): seq<byte>
    requires AllOther(bs)
  {
    if bs == [] then [] else assert Other(bs[0]); BlockBytes(bs[0]) + Blocks(bs[1..])
  }

  /** A text block of `len` bytes; with an odd number, the last word's high byte is the byte behind
      the block. */
  function TextBytes(b1: byte, b2: byte, len: nat, offset: word, pad: byte, ws: seq<word>): seq<byte>
    requires Covers(len, ws)
  {
    [b1, b2] + Bytes(len + 8) + [TEXT] + Bytes(offset) + [pad] + AllBytes(ws)
  }

  predicate Covers(len: nat, ws: seq<word>) { 2 * |ws| - 1 <= len <= 2 * |ws| && 2 * |ws| + 8 < 0x1_0000 }

  lemma SkipsBlock(before: seq<byte>, b: Block, rest: seq<byte>, stale: byte)
    requires Other(b)
    ensures LookAt(before + BlockBytes(b) + rest, |before|, stale) == Skip(|before| + |BlockBytes(b)|)
  {
    var f, pos := before + BlockBytes(b) + rest, |before|;
    assert f[pos + 2] == BlockBytes(b)[2] && f[pos + 3] == BlockBytes(b)[3] && f[pos + 4] == b.tag;
  }

  lemma FoundHere(f: seq<byte>, pos: nat, stale: byte)
    requires pos + 5 <= |f| && f[pos + 4] == TEXT
    ensures Find(f, pos, stale) == Some(pos)
  {
  }

  /** The search passes over any number of other blocks, wherever it starts. */
  lemma {:induction false} FindsText(before: seq<byte>, bs: seq<Block>, text: seq<byte>, stale: byte)
    requires AllOther(bs) && |text| >= 5 && text[4] == TEXT
    ensures Find(before + Blocks(bs) + text, |before|, stale) == Some(|before| + |Blocks(bs)|)
    decreases |bs|
  {
    hide BlockBytes, LookAt;
    var f := before + Blocks(bs) + text;
    if bs == [] {
      assert f[|before| + 4] == text[4];
      FoundHere(f, |before|, stale);
    } else {
      assert Other(bs[0]);
      var rest := Blocks(bs[1..]) + text;
      assert f == before + BlockBytes(bs[0]) + rest;
      SkipsBlock(before, bs[0], rest, stale);
      FindsText(before + BlockBytes(bs[0]), bs[1..], text, stale);
      assert f == before + BlockBytes(bs[0]) + Blocks(bs[1..]) + text;
    }
  }

  /** The bytes of the words appear in the file from a position on. */
  ghost predicate WordsIn(f: seq<byte>, pos: nat, ws: seq<word>) {
    pos + 2 * |ws| <= |f| && f[pos..pos + 2 * |ws|] == AllBytes(ws)
  }

  lemma StoresOne(s: Store, f: seq<byte>, pos: nat, offset: word, ws: seq<word>, n: nat)
    requires n < |ws| && offset + 2 * |ws| <= MEM_BYTES && ClearRange(offset, 2 * |ws|) && WordsIn(f, pos, ws)
    ensures f[pos + 2 * n] as int + 0x100 * f[pos + 2 * n + 1] as int == ws[n]
    ensures StoreWord(PutWords(s, offset, ws[..n]), offset + 2 * n, ws[n]) == PutWords(s, offset, ws[..n + 1])
  {
    BytesOf(ws, n);
    assert f[pos + 2 * n] == AllBytes(ws)[2 * n] && f[pos + 2 * n + 1] == AllBytes(ws)[2 * n + 1];
    assert !RegisterCell(offset + 2 * n) && offset + 2 * n != RXDB;
    assert ws[..n + 1][..n] == ws[..n];
  }

  lemma {:induction false} StoresWords(s: Store, f: seq<byte>, pos: nat, offset: word, ws: seq<word>,
                                      len: nat, n: nat, b1: byte, b2: byte)
    requires n <= |ws| && Covers(len, ws) && offset + 2 * |ws| <= MEM_BYTES && ClearRange(offset, 2 * |ws|)
    requires WordsIn(f, pos, ws)
    ensures StoreWords(PutWords(s, offset, ws[..n]), f, pos + 2 * n, (offset + 2 * n) % 0x1_0000,
                       len, 2 * n, b1, b2)
         == Some(PutWords(s, offset, ws))
    decreases |ws| - n
  {
    hide PutWords, StoreWord, AllBytes, ClearRange;
    if n == |ws| {
      assert ws[..n] == ws;
    } else {
      StoresOne(s, f, pos, offset, ws, n);
      StoresWords(s, f, pos, offset, ws, len, n + 1, f[pos + 2 * n], f[pos + 2 * n + 1]);
    }
  }

  lemma StoresAll(s: Store, f: seq<byte>, pos: nat, offset: word, ws: seq<word>, len: nat, b1: byte, b2: byte)
    requires Covers(len, ws) && offset + 2 * |ws| <= MEM_BYTES && ClearRange(offset, 2 * |ws|) && WordsIn(f, pos, ws)
    ensures StoreWords(s, f, pos, offset, len, 0, b1, b2) == Some(PutWords(s, offset, ws))
  {
    hide StoreWords, ClearRange, WordsIn;
    assert PutWords(s, offset, ws[..0]) == s;
    hide PutWords;
    StoresWords(s, f, pos, offset, ws, len, 0, b1, b2);
  }

  lemma LoadsText(s: Store, f: seq<byte>, pos: nat, offset: word, ws: seq<word>, len: nat)
    requires offset + 2 * |ws| <= MEM_BYTES && ClearRange(offset, 2 * |ws|) && Covers(len, ws)
    requires pos + 8 <= |f| && Word(f, pos + 2) == len + 8 && Word(f, pos + 5) == offset
    requires WordsIn(f, pos + 8, ws)
    ensures LoadText(s, f, pos) == Some(PutWords(SetR(s, R_PC, offset), offset, ws))
  {
    hide StoreWords, PutWords, ClearRange, WordsIn, SetR, Word;
    StoresAll(SetR(s, R_PC, offset), f, pos + 8, offset, ws, len, f[pos], f[pos + 1]);
  }

  lemma TextFields(before: seq<byte>, b1: byte, b2: byte, len: nat, offset: word, pad: byte, ws: seq<word>,
                   rest: seq<byte>)
    requires Covers(len, ws)
    ensures var t := TextBytes(b1, b2, len, offset, pad, ws); |t| >= 5 && t[4] == TEXT
    ensures var f, pos := before + TextBytes(b1, b2, len, offset, pad, ws) + rest, |before|;
            && pos + 8 <= |f| && Word(f, pos + 2) == len + 8 && Word(f, pos + 5) == offset
            && WordsIn(f, pos + 8, ws)
  {
    var t := TextBytes(b1, b2, len, offset, pad, ws);
    var f, pos := before + t + rest, |before|;
    if ws != [] {
      BytesOf(ws, 0);
    }
    assert f[pos..pos + |t|] == t;
    assert f[pos + 2] == t[2] && f[pos + 3] == t[3] && f[pos + 5] == t[5] && f[pos + 6] == t[6];
    assert f[pos + 8..pos + |t|] == t[8..] == AllBytes(ws);
  }

  /** For any run of well-formed other blocks and a text block whose range is memory clear of the
      registers and of RXDB, whatever follows: the other blocks are skipped, the words are
      stored from the load offset on, the program counter is set to it, and nothing else
      changes.  A block of an odd number of bytes takes the byte behind it along, as the high
      byte of its last word. */
  lemma LoadsFirstText(s: Store, bs: seq<Block>, b1: byte, b2: byte, len: nat, offset: word, pad: byte,
                       ws: seq<word>, rest: seq<byte>, stale: byte)
    requires AllOther(bs) && Covers(len, ws)
    requires offset + 2 * |ws| <= MEM_BYTES && ClearRange(offset, 2 * |ws|)
    ensures var r := LoadObject(s, Blocks(bs) + TextBytes(b1, b2, len, offset, pad, ws) + rest, stale);
            r.Some? && Holds(s, r.value, ws, offset)
  {
    hide Find, LoadText, Blocks, TextBytes, Holds, WordsIn, PutWords, SetR, Word, ClearRange, LookAt;
    var t := TextBytes(b1, b2, len, offset, pad, ws);
    var f := Blocks(bs) + t + rest;
    assert f == [] + Blocks(bs) + (t + rest);
    TextFields(Blocks(bs), b1, b2, len, offset, pad, ws, rest);
    FindsText([], bs, t + rest, stale);
    LoadsText(s, f, |Blocks(bs)|, offset, ws, len);
    PreparedHolds(s, ws, offset);
  }

  /** What the reader takes for a type byte where fewer than five bytes are left. */
  function CutType(tail: seq<byte>, stale: byte): byte { if tail == [] then stale else tail[0] }

  lemma NothingHere(before: seq<byte>, tail: seq<byte>, stale: byte)
    requires |tail| < 5
    ensures var f := before + tail;
            Find(f, |before|, stale) == if CutType(tail, stale) == TEXT && 5 <= |f| then Some(|f| - 5) else None
  {
  }

  lemma {:induction false} FindsNothing(before: seq<byte>, bs: seq<Block>, tail: seq<byte>, stale: byte)
    requires AllOther(bs) && |tail| < 5
    ensures var f := before + Blocks(bs) + tail;
            Find(f, |before|, stale) == if CutType(tail, stale) == TEXT && 5 <= |f| then Some(|f| - 5) else None
    decreases |bs|
  {
    hide BlockBytes, LookAt, CutType;
    var f := before + Blocks(bs) + tail;
    if bs == [] {
      assert f == before + tail;
      NothingHere(before, tail, stale);
    } else {
      assert Other(bs[0]);
      var rest := Blocks(bs[1..]) + tail;
      assert f == before + BlockBytes(bs[0]) + rest;
      SkipsBlock(before, bs[0], rest, stale);
      FindsNothing(before + BlockBytes(bs[0]), bs[1..], tail, stale);
      assert f == before + BlockBytes(bs[0]) + Blocks(bs[1..]) + tail;
    }
  }

  lemma CutLoadsNothing(s: Store, bs: seq<Block>, tail: seq<byte>, stale: byte)
    requires AllOther(bs) && |tail| < 5
    ensures LoadObject(s, Blocks(bs) + tail, stale) == Some(s) <==> bs == [] || CutType(tail, stale) != TEXT
  {
    hide BlockBytes, Find, StoreWords;
    var f := Blocks(bs) + tail;
    assert f == [] + Blocks(bs) + tail;
    FindsNothing([], bs, tail, stale);
    if bs != [] {
      assert Other(bs[0]);
      BlockSize(bs[0]);
    }
  }

  lemma BlockSize(b: Block)
    requires Other(b)
    ensures |BlockBytes(b)| >= 6
  {
  }

  /** A file of other blocks only loads nothing, exactly if the type byte's variable does not
      happen to hold the type of a text block before it is read into. */
  lemma NoTextLoadsNothing(s: Store, bs: seq<Block>, stale: byte)
    requires AllOther(bs)
    ensures LoadObject(s, Blocks(bs), stale) == Some(s) <==> bs == [] || stale != TEXT
  {
    assert Blocks(bs) + [] == Blocks(bs);
    CutLoadsNothing(s, bs, [], stale);
  }

  /** When the file stops within the first five bytes of another block, that variable does not
      matter: it loads nothing exactly if no block came before, or if the rest does not start
      with the type of a text block. */
  lemma CutBlockLoadsNothing(s: Store, bs: seq<Block>, tail: seq<byte>, stale: byte)
    requires AllOther(bs) && 1 <= |tail| < 5
    ensures LoadObject(s, Blocks(bs) + tail, stale) == Some(s) <==> bs == [] || tail[0] != TEXT
  {
    CutLoadsNothing(s, bs, tail, stale);
  }
}
