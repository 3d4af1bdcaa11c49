/** The memory device: a byte store addressed by byte, words little-endian. */
module MemoryDevice {
  const MEM_BYTES: nat := 65535

  type byte = x: int | 0 <= x < 0x100
  type word = x: int | 0 <= x < 0x1_0000

  const ZERO: byte := 0

  type Store = s: seq<byte> | |s| == MEM_BYTES witness seq(MEM_BYTES, _ => ZERO)

  function WordAt(s: Store, addr: nat): (w: word)
    requires addr + 1 < MEM_BYTES
  {
    s[addr] as int + 0x100 * s[addr + 1] as int
  }

  function PutWord(s: Store, addr: nat, w: word): Store
    requires addr + 1 < MEM_BYTES
  {
    s[addr := w % 0x100][addr + 1 := w / 0x100]
  }

  function PutByte(s: Store, addr: nat, w: word): Store
    requires addr < MEM_BYTES
  {
    s[addr := w % 0x100]
  }

  /** A stored word is read back, and leaves every word it does not overlap. */
  lemma PutWordReads(s: Store, addr: nat, w: word, other: nat)
    requires addr + 1 < MEM_BYTES && other + 1 < MEM_BYTES
    ensures WordAt(PutWord(s, addr, w), addr) == w
    ensures other + 1 < addr || addr + 1 < other ==> WordAt(PutWord(s, addr, w), other) == WordAt(s, other)
  {
  }

  /** Two bytes stored one after the other are a stored word. */
  lemma BytesMakeWord(s: Store, addr: nat, w: word)
    requires addr + 1 < MEM_BYTES
    ensures PutByte(PutByte(s, addr, w % 0x100), addr + 1, w / 0x100) == PutWord(s, addr, w)
  {
  }

  /** The words of a program stored from `addr` on. */
  function PutWords(s: Store, addr: nat, ws: seq<word>): Store
    requires addr + 2 * |ws| <= MEM_BYTES
    decreases |ws|
  {
    if ws == [] then s
    else PutWord(PutWords(s, addr, ws[..|ws| - 1]), addr + 2 * (|ws| - 1), ws[|ws| - 1])
  }

  /** A loaded program reads back word for word, and nothing else has changed. */
  lemma {:induction false} PutWordsReads(s: Store, addr: nat, ws: seq<word>)
    requires addr + 2 * |ws| <= MEM_BYTES
    ensures forall k :: 0 <= k < |ws| ==> WordAt(PutWords(s, addr, ws), addr + 2 * k) == ws[k]
    ensures forall a :: 0 <= a < MEM_BYTES && !(addr <= a < addr + 2 * |ws|) ==> PutWords(s, addr, ws)[a] == s[a]
    decreases |ws|
  {
    if ws != [] {
      var n := |ws| - 1;
      PutWordsReads(s, addr, ws[..n]);
      var t := PutWords(s, addr, ws[..n]);
      forall k | 0 <= k < |ws| ensures WordAt(PutWords(s, addr, ws), addr + 2 * k) == ws[k] {
        PutWordReads(t, addr + 2 * n, ws[n], addr + 2 * k);
      }
    }
  }

  class MemDevice {
    var mar: word
    var mbr: word
    const store: array<byte>

    constructor ()
      ensures fresh(store) && store.Length == MEM_BYTES
    {
      mar, mbr := 0, 0;
      store := new byte[MEM_BYTES];
    }

    function Contents(): Store
      reads this, store
      requires store.Length == MEM_BYTES
    {
      store[..]
    }

    method WriteWord(addr: nat, w: word)
      requires store.Length == MEM_BYTES && addr + 1 < MEM_BYTES
      modifies this, store
      ensures Contents() == PutWord(old(Contents()), addr, w)
    {
      mar := addr % 0x1_0000;
      mbr := w;
      store[mar] := mbr % 0x100;
      store[mar + 1] := mbr / 0x100;
    }

    method WriteByte(addr: nat, w: word)
      requires store.Length == MEM_BYTES && addr < MEM_BYTES
      modifies this, store
      ensures Contents() == PutByte(old(Contents()), addr, w)
    {
      mar := addr % 0x1_0000;
      mbr := w;
      store[mar] := mbr % 0x100;
    }

    method ReadWord(addr: nat) returns (w: word)
      requires store.Length == MEM_BYTES && addr + 1 < MEM_BYTES
      ensures w == WordAt(Contents(), addr)
    {
      w := store[addr];
      w := w + 0x100 * store[addr + 1] as int;
    }

    /** Load the text of an a.out file, given as its words. */
    method LoadAout(text: seq<word>, offset: nat)
      requires store.Length == MEM_BYTES && offset + 2 * |text| <= MEM_BYTES
      modifies store
      ensures Contents() == PutWords(old(Contents()), offset, text)
      ensures forall k :: 0 <= k < |text| ==> WordAt(Contents(), offset + 2 * k) == text[k]
    {
      var n, m := 0, offset;
      while n < |text|
        invariant 0 <= n <= |text| && m == offset + 2 * n
        invariant Contents() == PutWords(old(Contents()), offset, text[..n])
      {
        store[m] := text[n] % 0x100;
        m := m + 1;
        store[m] := text[n] / 0x100;
        m := m + 1;
        assert text[..n + 1][..n] == text[..n];
        n := n + 1;
      }
      assert text[..n] == text;
      PutWordsReads(old(Contents()), offset, text);
    }
  }
}
