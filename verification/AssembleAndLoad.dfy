/** From a listing to memory: what the assembler writes and the loader reads back. */
module AssembleAndLoad {
  import opened Wrappers
  import opened MemoryDevice
  import opened AtticMemory
  import opened Assembler
  import opened Loader
  import opened WordFiles

  datatype Line = Comment(text: string) | Octal(digits: string)

  predicate WellFormed(l: Line) {
    match l
    case Comment(text) => '\n' !in text
    case Octal(digits) => 1 <= |digits| < LINE && forall i :: 0 <= i < |digits| ==> IsOctal(digits[i])
  }

  ghost predicate AllWellFormed(lines: seq<Line>) { forall i :: 0 <= i < |lines| ==> WellFormed(lines[i]) }

  function Text(l: Line): string {
    match l
    case Comment(text) => ";" + text + "\n"
    case Octal(digits) => digits + "\n"
  }

  function Listing(lines: seq<Line>): string {
    if lines == [] then "" else Text(lines[0]) + Listing(lines[1..])
  }

  function Value(digits: string): word
    requires WellFormed(Octal(digits))
  {
    OctalValue(digits) % 0x1_0000
  }

  /** The words a listing stands for. */
  ghost function Words(lines: seq<Line>): seq<word>
    requires AllWellFormed(lines)
  {
    if lines == [] then []
    else if lines[0].Comment? then Words(lines[1..])
    else assert WellFormed(lines[0]); [Value(lines[0].digits)] + Words(lines[1..])
  }

  // Assembling

  lemma {:induction false} AllDigits(s: string)
    requires forall i :: 0 <= i < |s| ==> IsOctal(s[i])
    ensures OctalPrefix(s) == |s|
  {
    if s != "" {
      AllDigits(s[1..]);
    }
  }

  lemma ScanDigits(digits: string)
    requires WellFormed(Octal(digits))
    ensures Scan(digits) == Some(Value(digits))
  {
    assert IsOctal(digits[0]);
    AllDigits(digits);
    assert digits[..|digits|] == digits;
  }

  lemma CommentLine(text: string, rest: string, offset: word, number: word, size: word, words: seq<byte>)
    requires '\n' !in text
    ensures Assembled(Text(Comment(text)) + rest, offset, number, size, words)
         == Assembled(rest, offset, number, size, words)
  {
    var s := Text(Comment(text)) + rest;
    LineEnds(s, 1, |text| + 1);
    assert s[|text| + 2..] == rest;
  }

  lemma OctalLine(digits: string, rest: string, offset: word, number: word, size: word, words: seq<byte>)
    requires WellFormed(Octal(digits))
    ensures Assembled(Text(Octal(digits)) + rest, offset, number, size, words)
         == Assembled(rest, offset, Value(digits), (size + 1) % 0x1_0000, words + Bytes(Value(digits)))
  {
    var s := Text(Octal(digits)) + rest;
    forall i | 1 <= i < |digits| ensures s[i] != '\n' {
      assert IsOctal(digits[i]);
    }
    LineEnds(s, 1, |digits|);
    assert s[..|digits|] == digits && s[|digits| + 1..] == rest;
    assert IsOctal(digits[0]) && s[0] == digits[0];
    ScanDigits(digits);
  }

  lemma EndLine(tail: string, offset: word, number: word, size: word, words: seq<byte>)
    ensures Assembled(".end" + tail, offset, number, size, words) == Binary(File(size, offset, words))
  {
    var s := ".end" + tail;
    var n := LineLength(s, 1);
    assert s[1] == 'e' && s[2] == 'n' && s[3] == 'd';
    assert n >= 4;
  }

  /** The number left in the assembler's variable after a listing. */
  ghost function LastNumber(lines: seq<Line>, number: word): word
    requires AllWellFormed(lines)
  {
    if Words(lines) == [] then number else Words(lines)[|Words(lines)| - 1]
  }

  lemma OctalFirst(lines: seq<Line>, number: word)
    requires AllWellFormed(lines) && lines != [] && lines[0].Octal?
    ensures WellFormed(lines[0]) && AllWellFormed(lines[1..])
    ensures Words(lines) == [Value(lines[0].digits)] + Words(lines[1..])
    ensures AllBytes(Words(lines)) == Bytes(Value(lines[0].digits)) + AllBytes(Words(lines[1..]))
    ensures LastNumber(lines, number) == LastNumber(lines[1..], Value(lines[0].digits))
  {
  }

  lemma Regroup(size: word, n: nat, words: seq<byte>, first: seq<byte>, others: seq<byte>)
    ensures ((size + 1) % 0x1_0000 + n) % 0x1_0000 == (size + (n + 1)) % 0x1_0000
    ensures words + first + others == words + (first + others)
  {
  }

  lemma ListingSplit(lines: seq<Line>, rest: string)
    requires lines != []
    ensures Listing(lines) + rest == Text(lines[0]) + (Listing(lines[1..]) + rest)
  {
  }

  lemma NoLines(rest: string, number: word, words: seq<byte>)
    ensures AllWellFormed([]) && Words([]) == [] && LastNumber([], number) == number
    ensures Listing([]) + rest == rest && words + AllBytes(Words([])) == words
  {
    assert words + [] == words;
  }

  lemma CommentFirst(lines: seq<Line>, number: word)
    requires AllWellFormed(lines) && lines != [] && lines[0].Comment?
    ensures '\n' !in lines[0].text && AllWellFormed(lines[1..])
    ensures Text(lines[0]) == Text(Comment(lines[0].text)) && Words(lines) == Words(lines[1..])
    ensures LastNumber(lines, number) == LastNumber(lines[1..], number)
  {
  }

  /** A well-formed listing in front of any other text adds its words and is gone. */
  lemma {:induction false} ListingAssembles(lines: seq<Line>, rest: string, offset: word,
                                           number: word, size: word, words: seq<byte>)
    requires AllWellFormed(lines)
    ensures Assembled(Listing(lines) + rest, offset, number, size, words)
         == Assembled(rest, offset, LastNumber(lines, number), (size + |Words(lines)|) % 0x1_0000,
                      words + AllBytes(Words(lines)))
    decreases |lines|
  {
    hide *;
    if lines == [] {
      NoLines(rest, number, words);
    } else {
      var others := Listing(lines[1..]) + rest;
      ListingSplit(lines, rest);
      if lines[0].Comment? {
        CommentFirst(lines, number);
        CommentLine(lines[0].text, others, offset, number, size, words);
        ListingAssembles(lines[1..], rest, offset, number, size, words);
      } else {
        OctalFirst(lines, number);
        var v, more := Value(lines[0].digits), Words(lines[1..]);
        Regroup(size, |more|, words, Bytes(v), AllBytes(more));
        OctalLine(lines[0].digits, others, offset, number, size, words);
        ListingAssembles(lines[1..], rest, offset, v, (size + 1) % 0x1_0000, words + Bytes(v));
      }
    }
  }

  // Loading

  lemma {:induction false} StoredIsWords(s: Store, ws: seq<word>, offset: nat, n: nat)
    requires n <= |ws| && offset + 2 * |ws| <= MEM_BYTES && ClearRange(offset, 2 * |ws|)
    ensures Stored(s, AllBytes(ws), offset, 2 * n) == PutWords(s, offset, ws[..n])
    decreases n
  {
    hide AllBytes;
    if n > 0 {
      var k := n - 1;
      StoredIsWords(s, ws, offset, k);
      BytesOf(ws, k);
      var t := PutWords(s, offset, ws[..k]);
      assert ws[..n][..k] == ws[..k];
      var a := offset + 2 * k;
      assert !RegisterCell(a) && !RegisterCell(a + 1) && a != RXDB && a + 1 != RXDB;
      BytesMakeWord(t, a, ws[k]);
      assert Stored(s, AllBytes(ws), offset, 2 * k + 1) == PutByte(t, a, ws[k] % 0x100);
    }
  }

  lemma FileLoads(s: Store, ws: seq<word>, offset: word, cut: word)
    requires offset + 2 * |ws| <= MEM_BYTES && ClearRange(offset, 2 * |ws|)
    ensures Loaded(s, File(|ws|, offset, AllBytes(ws)), cut) == SetR(PutWords(s, offset, ws), R_PC, offset)
  {
    hide AllBytes, PutWords, Stored, SetR, ClearRange, RegisterCell;
    var file := File(|ws|, offset, AllBytes(ws));
    assert Header(file, 0, cut) == |ws| && Header(file, 2, cut) == offset;
    assert Body(file) == AllBytes(ws);
    assert LoadCount(|ws|, offset) == 2 * |ws|;
    StoredIsWords(s, ws, offset, |ws|);
    assert ws[..|ws|] == ws;
  }

  lemma SourceAssembles(lines: seq<Line>, tail: string, offset: word)
    requires AllWellFormed(lines)
    ensures Assemble(Listing(lines) + (".end" + tail), offset)
         == Binary(File(|Words(lines)| % 0x1_0000, offset, AllBytes(Words(lines))))
  {
    hide Assembled, Words, AllBytes, File;
    var ws := Words(lines);
    ListingAssembles(lines, ".end" + tail, offset, 0, 0, []);
    assert [] + AllBytes(ws) == AllBytes(ws);
    EndLine(tail, offset, LastNumber(lines, 0), |ws| % 0x1_0000, AllBytes(ws));
  }

  /** The round trip: a listing of octal lines and comments, closed by `.end`, assembled and
      then loaded where it fits and is clear of the registers and of RXDB, stores exactly its
      words, sets the program counter to the offset, and changes nothing else. */
  lemma RoundTrip(s: Store, lines: seq<Line>, tail: string, offset: word, cut: word)
    requires AllWellFormed(lines)
    requires offset + 2 * |Words(lines)| <= MEM_BYTES && ClearRange(offset, 2 * |Words(lines)|)
    ensures var r := Assemble(Listing(lines) + (".end" + tail), offset);
            r.Binary? && Holds(s, Loaded(s, r.bytes, cut), Words(lines), offset)
  {
    var ws := Words(lines);
    assert |ws| % 0x1_0000 == |ws|;
    hide *;
    SourceAssembles(lines, tail, offset);
    FileLoads(s, ws, offset, cut);
    LoadedHolds(s, ws, offset);
  }

  // Every word has such a line

  function Digits(w: nat): string {
    (if w < 8 then "" else Digits(w / 8)) + [(w % 8 + '0' as int) as char]
  }

  lemma LastDigit(w: nat)
    ensures var d := Digits(w);
            && |d| >= 1 && IsOctal(d[|d| - 1]) && Digit(d[|d| - 1]) == w % 8
            && d[..|d| - 1] == if w < 8 then "" else Digits(w / 8)
  {
    var front := if w < 8 then "" else Digits(w / 8);
    assert Digits(w) == front + [(w % 8 + '0' as int) as char];
  }

  lemma {:induction false} DigitsRead(w: nat)
    ensures forall i :: 0 <= i < |Digits(w)| ==> IsOctal(Digits(w)[i])
    ensures OctalValue(Digits(w)) == w
  {
    var d := Digits(w);
    LastDigit(w);
    hide Digits, IsOctal, Digit;
    if w >= 8 {
      DigitsRead(w / 8);
    }
    forall i | 0 <= i < |d| ensures IsOctal(d[i]) {
      assert i < |d| - 1 ==> d[i] == d[..|d| - 1][i];
    }
  }

  function Power8(n: nat): nat { if n == 0 then 1 else 8 * Power8(n - 1) }

  lemma {:induction false} DigitsLength(w: nat, n: nat)
    requires n > 0 && w < Power8(n)
    ensures 1 <= |Digits(w)| <= n
    decreases n
  {
    LastDigit(w);
    hide Digits, IsOctal, Digit;
    if w >= 8 {
      DigitsLength(w / 8, n - 1);
    }
  }

  /** A word written in octal is a well-formed line of at most six digits that reads back. */
  lemma WordHasLine(w: word)
    ensures WellFormed(Octal(Digits(w))) && Value(Digits(w)) == w && |Digits(w)| <= 6
  {
    hide Digits, OctalValue, IsOctal;
    assert Power8(6) == 8 * 8 * Power8(4) && Power8(4) == 8 * 8 * Power8(2) && Power8(2) == 64;
    DigitsLength(w, 6);
    DigitsRead(w);
  }

  function OctalLines(ws: seq<word>): seq<Line> { seq(|ws|, i requires 0 <= i < |ws| => Octal(Digits(ws[i]))) }

  /** Any list of words is what its octal lines stand for. */
  lemma {:induction false} WordsHaveListing(ws: seq<word>)
    ensures AllWellFormed(OctalLines(ws)) && Words(OctalLines(ws)) == ws
    decreases |ws|
  {
    hide Digits, Value, WellFormed;
    forall i | 0 <= i < |ws| ensures WellFormed(OctalLines(ws)[i]) {
      WordHasLine(ws[i]);
    }
    if ws != [] {
      WordHasLine(ws[0]);
      WordsHaveListing(ws[1..]);
      assert OctalLines(ws)[1..] == OctalLines(ws[1..]);
    }
  }

  // When there is no round trip

  lemma NothingLeft(offset: word, number: word, size: word, words: seq<byte>)
    ensures Assembled("", offset, number, size, words) == Binary(File(0, offset, words))
  {
  }

  lemma EmptyFileLoads(s: Store, offset: word, words: seq<byte>, cut: word)
    ensures Loaded(s, File(0, offset, words), cut) == SetR(s, R_PC, offset)
  {
  }

  /** A listing that is never closed leaves the size at zero: whatever it holds, loading its
      file only sets the program counter. */
  lemma UnclosedLoadsNothing(s: Store, lines: seq<Line>, offset: word, cut: word)
    requires AllWellFormed(lines)
    ensures var r := Assemble(Listing(lines), offset);
            r.Binary? && Loaded(s, r.bytes, cut) == SetR(s, R_PC, offset)
  {
    hide Assembled, Words, AllBytes, Listing, Loaded, SetR, File, LastNumber, AllWellFormed;
    assert Listing(lines) + "" == Listing(lines);
    ListingAssembles(lines, "", offset, 0, 0, []);
    NothingLeft(offset, LastNumber(lines, 0), |Words(lines)| % 0x1_0000, [] + AllBytes(Words(lines)));
    EmptyFileLoads(s, offset, [] + AllBytes(Words(lines)), cut);
  }

  /** A comment that the file ends in keeps the assembler reading for ever. */
  lemma UnendedCommentHangs(lines: seq<Line>, text: string, offset: word)
    requires AllWellFormed(lines) && '\n' !in text
    ensures Assemble(Listing(lines) + (";" + text), offset) == Hangs
  {
    hide Assembled, Words, AllBytes, Listing;
    ListingAssembles(lines, ";" + text, offset, 0, 0, []);
    EndlessComment(text, offset, LastNumber(lines, 0), |Words(lines)| % 0x1_0000, [] + AllBytes(Words(lines)));
  }

  lemma EndlessComment(text: string, offset: word, number: word, size: word, words: seq<byte>)
    requires '\n' !in text
    ensures Assembled(";" + text, offset, number, size, words) == Hangs
  {
    LineEnds(";" + text, 1, |text| + 1);
  }
}
