/** What single lines of a listing and odd files come to: signs, spaces, numbers that cannot be read,
    blank and overlong lines, and files too short or too long. */
module TextLaws {
  import opened Wrappers
  import opened MemoryDevice
  import opened AtticMemory
  import opened WordFiles
  import opened Assembler
  import opened AssembleAndLoad
  import opened Loader
  import opened ObjReader

  // Numbers

  /** A space, a tab or a newline, or one of the three control characters behind it. */
  predicate IsBlank(c: char) { c as int in {9, 10, 11, 12, 13, 32} }

  ghost predicate Spaces(s: string) { forall i :: 0 <= i < |s| ==> IsBlank(s[i]) }

  ghost predicate Octals(s: string) { forall i :: 0 <= i < |s| ==> '0' <= s[i] <= '7' }

  lemma {:induction false} SkipsSpaces(a: string, s: string)
    requires Spaces(a) && (s == "" || !IsBlank(s[0]))
    ensures Unspaced(a + s) == s
  {
    if a == "" {
      assert a + s == s;
    } else {
      assert (a + s)[0] == a[0] && (a + s)[1..] == a[1..] + s;
      SkipsSpaces(a[1..], s);
    }
  }

  lemma {:induction false} PrefixStops(d: string, rest: string)
    requires Octals(d) && (rest == "" || !('0' <= rest[0] <= '7'))
    ensures OctalPrefix(d + rest) == |d|
  {
    if d == "" {
      assert d + rest == rest;
    } else {
      assert (d + rest)[0] == d[0] && (d + rest)[1..] == d[1..] + rest;
      PrefixStops(d[1..], rest);
    }
  }

  lemma NumberReads(digits: string, rest: string)
    requires Octals(digits) && (rest == "" || !('0' <= rest[0] <= '7'))
    ensures Number(digits + rest) == if digits == "" then None else Some(OctalValue(digits))
  {
    hide OctalValue, OctalPrefix;
    PrefixStops(digits, rest);
    assert (digits + rest)[..|digits|] == digits;
  }

  /** A line is read as leading space, a sign if there is one, and octal digits; what follows them
      does not matter.  A negative number is its complement in 16 bits; without digits there is
      no number. */
  lemma ScanReads(space: string, sign: string, digits: string, rest: string)
    requires Spaces(space) && sign in {"", "+", "-"} && Octals(digits)
    requires rest == "" || !('0' <= rest[0] <= '7')
    requires sign == "" && digits == "" ==> rest == "" || (!IsBlank(rest[0]) && rest[0] !in "+-")
    ensures Scan(space + (sign + (digits + rest))) ==
              if digits == "" then None
              else
                var v := OctalValue(digits) % 0x1_0000;
                Some(if sign == "-" then (0x1_0000 - v) % 0x1_0000 else v)
  {
    hide OctalValue, Unspaced, Number;
    var s := sign + (digits + rest);
    assert sign == "" ==> s == digits + rest;
    SkipsSpaces(space, s);
    assert sign != "" ==> s[1..] == digits + rest && s[0] == sign[0];
    NumberReads(digits, rest);
    if sign == "-" && digits != "" {
      Complement(OctalValue(digits));
    }
  }

  lemma Complement(v: nat)
    ensures (0 - v) % 0x1_0000 == (0x1_0000 - v % 0x1_0000) % 0x1_0000
  {
  }

  // Lines

  /** A line of fewer than eight characters that is neither a comment nor the end adds one word: its
      number, or the number before it when it has none.  Its first character may be a newline, so
      a blank line is one with the line that follows it. */
  lemma OneLine(line: string, rest: string, offset: word, number: word, size: word, words: seq<byte>)
    requires 1 <= |line| < LINE && '\n' !in line[1..] && line[0] != ';' && !IsEnd(line)
    ensures var v := if Scan(line).Some? then Scan(line).value else number;
            Assembled(line + ("\n" + rest), offset, number, size, words)
            == Assembled(rest, offset, v, (size + 1) % 0x1_0000, words + Bytes(v))
  {
    hide Scan;
    var s := line + ("\n" + rest);
    forall i | 1 <= i < |line| ensures s[i] != '\n' {
      assert s[i] == line[1..][i - 1];
    }
    LineEnds(s, 1, |line|);
    assert s[..|line|] == line && s[|line| + 1..] == rest;
  }

  /** Eight characters or more fill the line buffer: its contents are then not ended, and what is read
      from it is not determined, unless it starts with the end mark. */
  lemma LongLine(line: string, rest: string, offset: word, number: word, size: word, words: seq<byte>)
    requires |line| >= LINE && '\n' !in line[1..] && line[0] != ';'
    ensures Assembled(line + rest, offset, number, size, words)
         == if line[..4] == ".end" then Binary(File(size, offset, words)) else Undefined
  {
    var s := line + rest;
    forall i | 1 <= i < LINE ensures s[i] != '\n' {
      assert s[i] == line[1..][i - 1];
    }
    assert s[..LINE] == line[..LINE];
  }

  // Files for the loader

  lemma {:induction false} StoredBytes(s: Store, data: seq<byte>, offset: nat, n: nat, a: nat)
    requires offset + n <= MEM_BYTES && ClearRange(offset, n) && a < MEM_BYTES
    ensures Stored(s, data, offset, n)[a] ==
              if !(offset <= a < offset + n) then s[a]
              else if a - offset < |data| then data[a - offset]
              else if data != [] then data[|data| - 1] else 0
    decreases n
  {
    if n > 0 {
      StillClear(offset, n, n - 1);
      StoredBytes(s, data, offset, n - 1, a);
      assert !RegisterCell(offset + n - 1) && offset + n - 1 != RXDB;
    }
  }

  lemma StillClear(offset: nat, bytes: nat, fewer: nat)
    requires ClearRange(offset, bytes) && fewer <= bytes
    ensures ClearRange(offset, fewer)
  {
  }

  /** Every byte after loading any file: the file's own from the fifth on, its last one repeated where
      it is too short, zero where it has none; nothing when the end of the program, cut to 16
      bits, is not behind its start. */
  lemma LoadedBytes(s: Store, file: seq<byte>, cut: word, len: word, offset: word, a: nat)
    requires len == (if |file| >= 2 then file[0] as int + 0x100 * file[1] as int else if |file| == 1 then cut else 0)
    requires offset == (if |file| >= 4 then file[2] as int + 0x100 * file[3] as int else if |file| == 3 then cut else 0)
    requires a < MEM_BYTES && !(Cell(R_PC) <= a < Cell(R_PC) + 2) && ClearRange(offset, 2 * len as int)
    ensures var end := (offset + 2 * len as int) % 0x1_0000;
            var t := Loaded(s, file, cut);
            && GetR(t, R_PC) == offset
            && t[a] == if !(offset <= a < end) then s[a]
                       else if 4 + (a - offset) < |file| then file[4 + (a - offset)]
                       else if |file| > 4 then file[|file| - 1] else 0
  {
    hide Stored;
    var n := LoadCount(len, offset);
    StillClear(offset, 2 * len as int, n);
    StoredBytes(s, Body(file), offset, n, a);
    PutWordReads(Stored(s, Body(file), offset, n), Cell(R_PC), offset, Cell(R_PC));
  }

  // Object files

  /** A text block whose data do not fit below the end of memory has no result. */
  lemma {:induction false} StoresOver(s: Store, f: seq<byte>, pos: nat, loc: word, len: nat, i: nat, b1: byte, b2: byte)
    requires loc + len - i > 0x1_0000
    ensures StoreWords(s, f, pos, loc, len, i, b1, b2) == None
    decreases len - i
  {
    hide StoreWord;
    if i < len && loc + 1 < MEM_BYTES {
      var c1, c2 := ByteOr(f, pos, b1), ByteOr(f, pos + 1, b2);
      StoresOver(StoreWord(s, loc, c1 as int + 0x100 * c2 as int), f, pos + 2, loc + 2, len, i + 2, c1, c2);
    }
  }

  /** A length word below eight stands for nearly all of memory: read as the data that remain after
      the eight bytes of the header, it wraps around. */
  lemma ShortLengthOverruns(s: Store, f: seq<byte>, pos: nat)
    requires pos + 7 <= |f| && Word(f, pos + 2) < 8 && Word(f, pos + 5) > 8
    ensures LoadText(s, f, pos) == None
  {
    hide StoreWords, Word, SetR;
    var len, offset := Less8(Word(f, pos + 2)), Word(f, pos + 5);
    assert len >= 0xFFF8;
    StoresOver(SetR(s, R_PC, offset), f, if pos + 7 < |f| then pos + 8 else |f|, offset, len, 0, f[pos], f[pos + 1]);
  }

  /** Another block with a length word below five takes six bytes all the same. */
  lemma ShortBlock(f: seq<byte>, pos: nat, stale: byte)
    requires pos + 6 <= |f| && f[pos + 4] != 3 && Word(f, pos + 2) < 5
    ensures LookAt(f, pos, stale) == Skip(pos + 6)
  {
  }

  /** A file of fewer than five bytes loads nothing; it is taken for a text block only by what stands
      where the type is looked for. */
  lemma TinyFile(s: Store, f: seq<byte>, stale: byte)
    requires |f| < 5
    ensures LookAt(f, 0, stale) == Ended((if f == [] then stale else f[0]) == 3) && LoadObject(s, f, stale) == Some(s)
  {
  }
}
